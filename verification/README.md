# Verified model of the task system

The system is event sourced. A Go API turns HTTP requests into commands on a queue. A C# domain
service handles each command under an idempotency key, appends events to a table and dispatches them.
A Go read-model updater projects the events onto a tasks table and caches the first pages of each
user's tasks. The API serves pages from the cache or the table, a stream service pushes changes, and
the front end walks the pages. A timer job deletes finished idempotency rows.

The project models the parts of it whose guarantees only show over whole runs, and proves them in
Dafny 4.11. `dafny verify dfyconfig.toml` checks everything.

## How it is built

**Idempotency, lease and replay.** `IdempotencyProtocol` is a step system for the rows of one key:
the record, the stored events with their flags, the deliveries that some receiver took, and any number
of handler runs, each with a program counter that follows the C# code. A storage call is one atomic
step. It may throw before or after it took effect, and the client library may repeat it and see its own
write as a conflict. Runs may crash anywhere, commands may be delivered any number of times, the clock
moves on its own, and the cleaner's query and delete are separate steps.
`CommandHandlers` is the same protocol as code: the handlers with their loops and catch blocks, written
over a class, with other runs acting between any two storage calls. It is proved that the code moves
only as the step system allows, so what is proved of every history of the step system holds for the code.
`IdempotencyInvariant` needs no timing assumption; `LeaseInvariant` adds the lease; `DomainService` states
the results for all keys at once; `LeaseNecessity` shows that the lease is exactly as long as it may be;
`Recovery` shows that no key is ever lost.

The lease assumption is stated once, in `IdempotencyProtocol.WithinLease`: a run that was told Started
takes steps only while less than 30 seconds have passed since the `UpdatedAt` it wrote. That value is
computed before the insert loop (TableTaskEventRepository.cs:129), and the model does the same. There is
one clock: skew between hosts counts against the lease.

**Projection.** `TaskEvents` has the two readings of an event: the mutable `TaskState` of the domain
service and the row of the read model. `Projection` is a step system of concurrent `Apply` runs on one
row, with the ETag of a version as its position. `TaskService` is the Go code as a class, with its
retry loop and failing calls, proved to move only as that step system allows. `Delivery` is about
arbitrary sequences of deliveries. `EndToEnd` joins the domain service with the projection.
`TaskHandlers` covers the decisions of the task handlers, `ReplayOrder` the comparator of the replay
query.

**Paged cache.** `Base64Url`, `ContinuationToken`, `TaskCache`, `TaskQueries` and `PageWalk` go from
the bytes of a token to the front end's loop. A `Pager` holds the table's answers while the table does
not change; a page may be short or empty and still have a continuation.

**Small concurrent kernels.** `EnqueuePool`, `Timestamps` and `StreamClients` are step systems for the
worker pool, the timestamp counter and the client registry, beside the sequential code of each.

Some claims hold only under a condition, and the condition is proved exact:

- at most one event per create-task key: if and only if runs act within the lease (`LeaseNecessity.AtMostOneIffLease`);
- one replay order whatever the enumeration: if and only if, per timestamp, all rows have an insertion
  time or at most one does (`ReplayOrder.OneOrderIffComparable`);
- every event takes effect in the read model exactly once: if and only if first arrivals come in rising
  timestamp order (`Delivery.NothingLostIffInOrder`);
- a task can be rebuilt by its handlers: if and only if no creation was sent data without a title, which
  nothing validates and which the read model shows as an empty title (`TaskEvents.FromDefinedIff`,
  `TaskHandlers.ThrowsIffUntitled`);
- a timestamp range is new: if and only if its additions fit 64 bits (`Timestamps.RangeIsNew`).

Where code and documentation differ the model follows the code: docs/event_flow.md describes the API as
filling the cache on a miss, but FetchTasks (prism-api/storage/storage.go:292-334) only reads it.

## Model

| member | source | states |
|---|---|---|
| `DomainService.AtMostOneEvent` | domain-service/src/DomainService.Domain/CommandHandlers/CreateTask.cs:14-46 | In every state of every run within the lease (crashes, ambiguous failures, redeliveries, cleaner runs, any number of workers) a create-task key has at most one stored event |
| `DomainService.StoredIsPrefixOfFirstPlan` | domain-service/src/DomainService.Domain/CommandHandlers/LoginUser.cs:27-73 | What is stored for a key is at all times a prefix of the one sequence its first emitting run chose |
| `DomainService.SettledIsFinal` | domain-service/src/DomainService.Domain/CommandHandlers/LoginUser.cs:51-69 | Once something is stored and no live run is emitting, nothing more is ever stored: a run cut between its two adds leaves one event, and no retry adds the second |
| `DomainService.VersionsHaveSingleOwners` | domain-service/src/DomainService.FunctionApp/Repositories/TableTaskEventRepository.cs:127-166 | With no timing assumption: two runs told Started never hold the same row version, and of all runs racing to reclaim one version at most one replaces it |
| `DomainService.OneEmitterAtATime` | domain-service/src/DomainService.FunctionApp/Repositories/TableTaskEventRepository.cs:219-241 | Within the lease no two live runs are both past Started while nothing is stored |
| `DomainService.FlaggedWasAccepted` | domain-service/src/DomainService.Domain/DispatchingExtensions.cs:15-22 | With no timing assumption: an event flagged Dispatched was taken by the queue or the fallback |
| `DomainService.ReturningRunCompletes` | domain-service/src/DomainService.Domain/CommandHandlers/CreateTask.cs:26-40 | A Started run that returns leaves the record Completed, at least one event stored and every stored event flagged |
| `DomainService.RunExtends` | domain-service/src/DomainService.FunctionApp/Repositories/TableTaskEventRepository.cs:38-59 | Stored events are never removed or altered, flags are never cleared, and the first plan stays |
| `DomainService.CleanerFreesKey` | maintenance/idempotency-cleaner/cleanup/cleanup_timer.py:52-98 | The cleaner's delete takes the record away and touches no event and no run |
| `IdempotencyInvariant.StepSound` | domain-service/src/DomainService.FunctionApp/Repositories/TableTaskEventRepository.cs:127-183 | Every step of a run, the cleaner or a crash keeps the timing-free invariant of a key |
| `LeaseInvariant.StepInv` | domain-service/src/DomainService.FunctionApp/Repositories/TableTaskEventRepository.cs:127-183 | Every step within the lease, the cleaner's late delete (maintenance/idempotency-cleaner) included, keeps the whole invariant of a key |
| `LeaseInvariant.LiveHolderAlone` | domain-service/src/DomainService.FunctionApp/Repositories/TableTaskEventRepository.cs:219-227 | Under the invariant at most one run whose lease is still running holds the row before the key is first completed |
| `LeaseNecessity.AtMostOneIffLease` | domain-service/src/DomainService.FunctionApp/Repositories/TableTaskEventRepository.cs:219-241 | With runs told Started acting only within b milliseconds of the UpdatedAt they wrote, every run keeps at most one event per create-task key if and only if b is at most 30000 |
| `Recovery.DeliveryRecovers` | domain-service/src/DomainService.Domain/CommandHandlers/CreateTask.cs:14-46 | From every state of every run within the lease: a delivery that finds the record absent, Completed or stale, is alone on its key and has no call fail never throws, and when it returns the record is Completed, something is stored and everything stored is flagged |
| `Recovery.RecoveryCompletes` | domain-service/src/DomainService.Domain/CommandHandlers/LoginUser.cs:15-79 | While the lease lasts such a delivery always has a next step, whether the queue takes its events or refuses them and the fallback does, and its steps lead to its return after finitely many |
| `Recovery.AlwaysRecoverable` | domain-service/src/DomainService.FunctionApp/Repositories/TableTaskEventRepository.cs:148-158 | Every run within the lease whose record is absent, Completed or stale can be continued by one delivery alone to a Completed record with all events flagged |
| `Recovery.CatchFreesKey` | domain-service/src/DomainService.FunctionApp/Repositories/TableTaskEventRepository.cs:174-183 | With no timing assumption: when the delete of a run's catch block takes effect the record is absent, the run has thrown and the stored events are untouched |
| `Recovery.RetryRecovers` | domain-service/src/DomainService.Domain/CommandHandlers/CreateTask.cs:42-46 | A delivery after a failed run's catch block, at once or later with nobody acting on the key in between, ends like any undisturbed delivery, with no wait for the lease |
| `Recovery.RetryCompletes` | domain-service/src/DomainService.Domain/CommandHandlers/CreateTask.cs:42-46 | Such a delivery can be made and completed right after the catch block |
| `IdempotencyProtocol.DispatchEvent` | domain-service/src/DomainService.Domain/ResilientEventDispatcher.cs:12-29 | It returns if and only if the queue accepts, or the call is not cancelled and the fallback accepts; the fallback has the event only if the queue call threw and nobody cancelled; an exception does not mean that nobody has it |
| `CommandHandlers.KeyStore.TryStartProcessing` | domain-service/src/DomainService.FunctionApp/Repositories/TableTaskEventRepository.cs:127-166 | Whatever others do in between, the loop moves only as the step system allows; Started means the row is the version this run wrote; alone, an absent or stale record gives Started, a Completed one AlreadyProcessed and a fresh one InProgress with nothing touched |
| `CommandHandlers.KeyStore.TryReclaimProcessing` | domain-service/src/DomainService.FunctionApp/Repositories/TableTaskEventRepository.cs:229-241 | Started means that the row now is this run's own version and that it replaced exactly the version whose ETag was read |
| `CommandHandlers.KeyStore.ReplayStoredEvents` | domain-service/src/DomainService.Domain/DispatchingExtensions.cs:7-25 | The loop moves as the step system allows; reporting true it leaves every event that was stored at the call flagged and at least one event flagged, reporting false none was stored, and a failed call leaves the run in the catch block or thrown |
| `CommandHandlers.KeyStore.CreateTaskBody` | domain-service/src/DomainService.Domain/CommandHandlers/CreateTask.cs:26-41 | The try block is a path of the step system; success means Completed with the events flagged; alone with no call failing it always succeeds, and with nothing stored before it stores exactly one task-created event, flagged |
| `CommandHandlers.KeyStore.LoginUserBody` | domain-service/src/DomainService.Domain/CommandHandlers/LoginUser.cs:27-73 | The same; alone with nothing stored it stores user-logged-in for a known user, user-created and settings-created for a new one, and fails when the Exists query does |
| `CommandHandlers.KeyStore.Process` | domain-service/src/DomainService.Domain/CommandHandlers/CreateTask.cs:26-46 | A try block that fails ends with the catch block as the last step, which leaves the record absent unless its own delete threw before taking effect; alone the record is absent |
| `CommandHandlers.KeyStore.Handle` | domain-service/src/DomainService.Domain/CommandHandlers/CreateTask.cs:12-47 | A whole delivery only extends the key's history by lawful steps; alone with no call failing and the record absent, stale or Completed with its events it returns with the record Completed, everything flagged and exactly the command's events on a key that had none; a record somebody still holds sends it away untouched |
| `CommandHandlers.HistoryInv` | domain-service/src/DomainService.Domain/CommandHandlers/CreateTask.cs:12-47 | Every history made that way, from an empty key and within the lease, satisfies the whole invariant after each step |
| `CommandHandlers.HistoryKeeps` | domain-service/src/DomainService.FunctionApp/Repositories/TableTaskEventRepository.cs:117-125 | Along every history stored events stay and flags are never cleared, whoever acts |
| `EndToEnd.AtMostOneRow` | domain-service/src/DomainService.Domain/DispatchingExtensions.cs:7-25 | However often a create-task command is redelivered, crashed, replayed and its event delivered, the tasks table holds at most one row that stems from its key |
| `TaskEvents.TaskState.Apply` | domain-service/src/DomainService.Domain/TaskState.cs:26-73 | The in-place update is the fold step; it throws exactly on creation data without a title, and then has changed nothing |
| `TaskEvents.Rebuild` | domain-service/src/DomainService.Domain/TaskState.cs:16-24 | The loop computes the left fold of the events, and throws exactly when the fold has no result |
| `TaskEvents.FromDefinedIff` | domain-service/src/DomainService.Domain/TaskState.cs:30-33 | A log can be rebuilt if and only if every creation that carries data carries a title |
| `TaskEvents.RowShowsState` | read-model-updater/domain/task_service.go:42-83 | On every history the projected row and the rebuilt task agree in all fields, null read as the empty string; the task can be rebuilt exactly when its creation has no data or has a title |
| `TaskEvents.CreatedRowShows` | read-model-updater/domain/task_service.go:42-51 | A created row shows each field its data carries, the zero value for the others, and is not done |
| `TaskEvents.MergedRowShows` | read-model-updater/domain/task_service.go:65-81 | A merge writes each field the event carries and its timestamp, and keeps the others |
| `Projection.RowIsFoldOfAccepted` | read-model-updater/domain/task_service.go:25-183 | For every interleaving of Apply runs: one insertion, strictly rising timestamps, and the row equals the fold of the accepted events, in the domain service's reading too where that is defined |
| `Projection.StepAppends` | read-model-updater/storage/storage.go:139-211 | A step appends at most one accepted event, the actor's own, and one row version with it |
| `Projection.ConflictsAreBounded` | read-model-updater/domain/task_service.go:85-105 | A run loses at most as many conditional writes as its event is newer than the row it first read; a nil result means the event was accepted |
| `TaskService.TaskTable.UpdateTask` | read-model-updater/storage/storage.go:194-211 | A conditional write is written, conflicts or fails; written means that no version came after the one read and that the merged row is the next; a conflict means that a newer version exists |
| `TaskService.TaskTable.RetryLoop` | read-model-updater/domain/task_service.go:85-105 | Whatever others write and however calls fail, the loop ends, moves only as the step system of concurrent runs allows, adds its event when it reports success, and undisturbed is one Deliver step |
| `TaskService.TaskTable.Apply` | read-model-updater/domain/task_service.go:25-183 | The same for all event kinds |
| `TaskService.PathKeeps` | read-model-updater/domain/task_service.go:25-183 | Along every path of concurrent runs the projection invariant stays, and versions and accepted events are only added |
| `Delivery.RowIsAccepted` | read-model-updater/domain/task_service.go:25-183 | After any sequence of deliveries the row is the fold of the accepted ones, which form a history |
| `Delivery.AcceptedAreRunningMaxima` | read-model-updater/domain/task_service.go:29-179 | The accepted deliveries are exactly the first creation and the later changes that are strict running maxima of the timestamp |
| `Delivery.NothingLostIffInOrder` | read-model-updater/domain/task_service.go:85-105 | Each event takes effect exactly once if and only if first arrivals are in rising timestamp order; repeats may come anywhere |
| `Delivery.RowShowsLog` | domain-service/src/DomainService.Domain/TaskState.cs:16-73 | Then the row agrees with what TaskStateBuilder.From makes of the whole log, which it can do exactly when the creation has no data or has a title |
| `Delivery.OutOfOrderLosesChange` | read-model-updater/domain/task_service.go:86-89 | Out of order the row can miss a change that the log holds |
| `TaskHandlers.SortIgnoresEnumeration` | domain-service/src/DomainService.FunctionApp/Repositories/TableTaskEventRepository.cs:24-36 | With distinct timestamps the sorted log does not depend on the table's enumeration |
| `TaskHandlers.SortIsStable` | domain-service/src/DomainService.FunctionApp/Repositories/TableTaskEventRepository.cs:35-35 | The sorted log rises in timestamp, and events of one timestamp keep the order the table returned them in |
| `TaskHandlers.NewestIsOneStep` | domain-service/src/DomainService.FunctionApp/Repositories/TableTaskEventRepository.cs:24-36 | Sorting and folding a log with a newest event anywhere in it is one Apply step |
| `TaskHandlers.TaskLog.ServeUpdate` | domain-service/src/DomainService.Domain/CommandHandlers/UpdateTask.cs:36-65 | The handler appends exactly the event its decision on the rebuilt task prescribes, and throws exactly when the task cannot be rebuilt |
| `TaskHandlers.TaskLog.Serve` | domain-service/src/DomainService.Domain/CommandHandlers/CompleteTask.cs:34-43 | A creation is always stored; a completion exactly for a titled open task, a reopening exactly for a titled done one, an update exactly for a titled one, each once with the request's id and timestamp; it throws exactly when the task cannot be rebuilt |
| `TaskHandlers.DoneFlips` | domain-service/src/DomainService.Domain/CommandHandlers/UpdateTask.cs:36-64 | In a serial run a completed event turns Done on, a reopened event turns it off, and an update to another category than "done" always leaves a done task not done |
| `TaskHandlers.StatusIsServed` | domain-service/src/DomainService.Domain/CommandHandlers/ReopenTask.cs:34-43 | In a serial run completing a titled open task stores one completion and makes it done with nothing else changed, reopening a titled done task likewise, and otherwise nothing is stored |
| `TaskHandlers.UpdateIsServed` | domain-service/src/DomainService.Domain/CommandHandlers/UpdateTask.cs:36-64 | In a serial run an update of a titled task stores one event, after which each field is the one sent or the old one; Done is false if a done task was sent a category not spelled "done" in any case |
| `TaskHandlers.CreationIsServed` | domain-service/src/DomainService.Domain/CommandHandlers/CreateTask.cs:34-36 | In a serial run a creation is stored, and the task has the title and the other fields it carries |
| `TaskHandlers.ThrowsIffUntitled` | domain-service/src/DomainService.Domain/TaskState.cs:30-33 | In a serial run an update, completion or reopening throws if and only if an earlier creation was sent data without a title |
| `ReplayOrder.Antisymmetric` | domain-service/src/DomainService.FunctionApp/Repositories/TableTaskEventRepository.cs:84-105 | The comparator is antisymmetric and says equal only for the same id |
| `ReplayOrder.ReplayedFirst` | domain-service/src/DomainService.FunctionApp/Repositories/TableTaskEventRepository.cs:84-105 | The earlier event comes first, then the earlier inserted if both say when, then the earlier stamped by the table with unstamped rows first, then the smaller id |
| `Sorting.OrdinalDecides` | domain-service/src/DomainService.FunctionApp/Repositories/TableTaskEventRepository.cs:104-104 | In ordinal order the first code unit that differs decides, and a text comes before its extensions |
| `ReplayOrder.TransitiveIffComparable` | domain-service/src/DomainService.FunctionApp/Repositories/TableTaskEventRepository.cs:84-115 | It is transitive on all rows of given timestamps if and only if per timestamp all rows have InsertedAt or at most one does |
| `ReplayOrder.OneOrderIffTransitive` | domain-service/src/DomainService.FunctionApp/Repositories/TableTaskEventRepository.cs:71-108 | For rows with distinct ids, sorting can end in one order only, whatever the enumeration, if and only if the comparator is transitive on them |
| `ReplayOrder.OneOrderIffComparable` | domain-service/src/DomainService.FunctionApp/Repositories/TableTaskEventRepository.cs:71-115 | For rows of given timestamps the replay order is always one if and only if per timestamp all have InsertedAt or at most one does |
| `ReplayOrder.Circle` | domain-service/src/DomainService.FunctionApp/Repositories/TableTaskEventRepository.cs:110-115 | Any two rows with InsertedAt and one without, of one timestamp, can compare in a circle |
| `Base64Url.RoundTrip` | prism-api/storage/storage.go:224-270 | Decoding undoes encoding for every byte string |
| `Base64Url.AlphabetIs` | prism-api/storage/storage.go:270-270 | The six-bit values are written with the URL-safe alphabet of RFC 4648 and read back as their places in it |
| `Base64Url.EncodesAs` | prism-api/storage/storage.go:270-270 | The unpadded texts of test vectors of section 10 of RFC 4648, and of two bytes that need "-" and "_" |
| `ContinuationToken.EncodeToken` | prism-api/storage/storage.go:254-271 | The buffer-filling encoder yields the length-prefixed form of the two keys, or no token when one is missing or empty |
| `ContinuationToken.BinaryRoundTrip` | prism-api/storage/storage.go:229-240 | The binary reader gives back the encoded pair exactly when both lengths fit 32 bits, and otherwise rejects it |
| `ContinuationToken.TokenRoundTrip` | prism-api/storage/storage.go:220-271 | Decoding a token gives back both keys |
| `ContinuationToken.StrangeTokenIsInvalid` | prism-api/storage/storage.go:224-227 | A token with a character that is neither of the alphabet nor a line break is refused |
| `ContinuationToken.TokenLayout` | prism-api/storage/storage.go:262-268 | The bytes of one token, spelled out, and no token when a key is missing or empty |
| `ContinuationToken.TokenInjective` | read-model-updater/cache.go:234-249 | Different pairs of keys have different tokens |
| `ContinuationToken.LegacyKeepsMeaning` | prism-api/storage/storage.go:242-251 | A JSON text shorter than 0x09000000 bytes is never taken for the binary form |
| `TaskCache.RefreshTasks` | read-model-updater/cache.go:97-189 | What is stored is exactly the assembly of the visited pages, with no row newer than it says; purged exactly when no visited row is the entity's, untouched exactly when a page read or the Redis call fails |
| `TaskCache.VisitedIsChain` | read-model-updater/cache.go:108-154 | The visited pages are linked by their continuations, all but the last full, and stop only at the limit or at a page that is short or has no continuation |
| `TaskCache.PagesIsQuotient` | read-model-updater/cache.go:163-170 | The rounded-up quotient is the number of pages the rows fill |
| `TaskQueries.FetchFromCache` | prism-api/storage/storage.go:336-390 | The search loop and slice arithmetic compute the cache lookup |
| `TaskQueries.CacheAgreesWithTable` | prism-api/storage/storage.go:336-390 | For every table, page size, number of cached pages and token, a cache hit is what the table path answers: same tasks, same next token |
| `TaskQueries.VisitedPagesHit` | prism-api/storage/storage.go:358-375 | Every visited page that is not empty is served from the cache |
| `TaskQueries.ResolvePageSize` | prism-api/storage/storage.go:273-290 | The result is the request when that is between 1 and 1000, 1000 when it is above, and with none asked for the default cut to that range |
| `TaskQueries.FetchTasks` | prism-api/storage/storage.go:292-334 | The answer is the table's answer, as it pages now or as it paged when the cached pages of the same size were stored; over a table that pages alike it does not depend on the cache; it is the invalid-token error exactly when the token does not decode |
| `PageWalk.PageAdvances` | read-model-updater/storage/storage.go:148-192 | A page adds exactly the user's rows between its start and its cut, and its token leads to the cut |
| `PageWalk.PageListsUser` | prism-api/storage/storage.go:300-306 | A page lists the rows of the user's partition between its start and its cut, each once, in key order, and nobody else's |
| `PageWalk.FetchRemote` | frontend/src/hooks/tasks/useTasks.ts:28-77 | The walk ends with the tasks of exactly the rows in the user's partition, each once and in key order, whichever requests the cache answers and however each request and each refresh cuts its pages; the repeated-token exit never fires |
| `EnqueuePool.AttemptedAtMostOnce` | prism-api/storage/storage.go:514-560 | In every schedule of producer, workers, failures and cancellations a payload is tried, and reaches the queue, at most once |
| `EnqueuePool.NilMeansAllSent` | prism-api/storage/storage.go:562-568 | A nil result means every payload was enqueued successfully exactly once and no send failed |
| `EnqueuePool.ErrorIsReal` | prism-api/storage/storage.go:562-568 | A send error is that of the first send that failed; a context error means the caller cancelled and no send failed |
| `EnqueuePool.PoolIsBounded` | prism-api/storage/storage.go:512-521 | Never more workers than asked for or than payloads, nor more payloads waiting than workers |
| `EnqueuePool.NeverStuck` | prism-api/storage/storage.go:525-560 | Every reachable unfinished state has an enabled step that is not a cancellation by the caller |
| `EnqueuePool.SchedulesAreBounded` | prism-api/storage/storage.go:525-560 | No schedule is longer than five steps a payload and four more |
| `EnqueuePool.MaximalRunReturns` | prism-api/storage/storage.go:525-568 | A schedule that cannot go on has returned |
| `EnqueuePool.EnqueueSequentially` | prism-api/storage/storage.go:503-511 | With one worker the successful sends are a prefix of the batch, and the queue holds that prefix, plus the failed message only if it took it |
| `Timestamps.RaisesIffFits` | prism-api/api/utils.go:30-36 | A reservation raises the last timestamp if and only if its additions fit 64 bits |
| `Timestamps.RangesIncrease` | prism-api/api/utils.go:18-40 | In swap order every range lies wholly above those before it, whatever the clock reads |
| `Timestamps.NoAba` | prism-api/api/utils.go:28-38 | A swap succeeds exactly when no other reservation was made since the load |
| `Timestamps.SwapReserves` | prism-api/api/utils.go:30-38 | A swap that meets the counter as it was loaded reserves its range, from the clock reading or right above the counter, and leaves the counter at its end |
| `Timestamps.RangesAreDisjoint` | prism-api/api/utils.go:18-40 | Two callers never hold the same timestamp |
| `Timestamps.Counter.NextTimestampRange` | prism-api/api/utils.go:18-40 | The retry loop returns its last clock reading if that is ahead of the counter it loaded, else the next value, and leaves the wrapped end in the counter; overflow included |
| `Timestamps.RangeIsNew` | prism-api/api/utils.go:30-36 | With a counter that only rose, the end of the range lies above every value the counter held if and only if the additions of the last round fit 64 bits |
| `Timestamps.FormatIsInjective` | prism-api/api/handlers.go:190-193 | Base-36 texts are equal only for equal numbers |
| `Timestamps.FormatsAs` | prism-api/api/handlers.go:192-192 | Digits are 0-9 and a-z, most significant first, with a sign in front of negative numbers |
| `Timestamps.ApplyCommandMetadata` | prism-api/api/handlers.go:190-197 | A supplied key is kept, a missing one is made from the timestamp, id and timestamp are set, nothing else changes |
| `Timestamps.FinalizeCommands` | prism-api/api/handlers.go:175-188 | The batch takes one range from the counter, an empty batch none; every command is finalized with its own timestamp of it, and its key returned at its place |
| `Timestamps.GeneratedKeysAreDistinct` | prism-api/api/handlers.go:175-197 | Generated keys of one process are pairwise distinct, within a batch and across concurrent requests |
| `StreamClients.Registry.AddClient` | stream-service/api/handlers.go:44-51 | Adds the channel to the user's set only, and keeps every set non-empty |
| `StreamClients.Registry.RemoveClient` | stream-service/api/handlers.go:53-62 | Takes the channel out, drops a set that becomes empty, and leaves other users alone |
| `StreamClients.Registry.Broadcast` | stream-service/api/handlers.go:64-73 | Exactly the user's channels with room get the message; no other channel changes |
| `StreamClients.NeverSendsOnClosed` | stream-service/api/handlers.go:159-164 | In every interleaving a registered channel is open, no broadcast sends on a closed one, and no user keeps an empty set |
| `StreamClients.OnlyOwnMessages` | stream-service/api/handlers.go:64-73 | What a connection receives was broadcast for its own user |
| `StreamClients.OfferFills` | stream-service/api/handlers.go:67-72 | An offer to a channel with room leaves the message there, to a full one it changes nothing, and it touches no other connection |
| `StreamClients.ReceiveDelivers` | stream-service/api/handlers.go:168-176 | A receive hands the connection what its channel held and empties it |
| `StreamClients.EachChannelOfferedOnce` | stream-service/api/handlers.go:64-73 | A finished broadcast offered its message exactly once to each channel of the user |

## Left out

- TryStartProcessing: the source's loop has no bound; the model gives the host a number of rounds after which it stops the run, which is the step system's crash.
- FindByIdempotencyKey: a query is one atomic read, and the code model returns events in the order they were stored; which order the comparator gives is the subject of `ReplayOrder`, and the step system allows any.
- RangesIncrease and the other claims over all concurrent callers are for runs whose additions fit 64 bits; `RangeIsNew` says what happens otherwise.
- Fresh GUIDs: an event is named by its key and its position in the store, so two adds never share an id.
- Idempotency rows without a Status property, which the lookup treats as absent.
- At-most-once claims for complete, reopen and update commands: they may finish without an event, so a late delete by the cleaner lets a redelivery decide again. Their reservation skeleton is that of create; what is proved of them is what they append.
- A Redis or table call that fails after taking effect is, for the cache, the same as one that succeeds.
- Explicit JSON nulls in event data: the C# fold and the Go projection differ on them (TaskState.cs:49-63, task_service.go:66-80). Payload fields are absent or have a value of the right type; order is a 32-bit integer.
- JSON text: parsing and printing are not modelled; the legacy token reader is an arbitrary function of the bytes.
- The table service is taken to send only non-empty continuation keys shorter than 2^32 bytes, and row keys are not empty.
- Cache claims are for a table that has not changed since the refresh; the cache write is unconditional and may be overtaken.
- EnqueueMessage is one call that may fail after taking effect; retries inside the queue client are not modelled, nor is the marshalling error, which precedes every send.
- In LoginUser the answer of the Exists query is free, so nothing is claimed about agreement with the users table.
- User and settings projections, LogoutUser and UpdateUserSettings: the same skeletons without the conditional write.
- The cleaner's loop over tables and rows and its counters: its query and its delete are steps of each key.
- JWT, HTTP, Redis, Azure clients, configuration, logging, the job hand-off of the API's pool, the event-stream wire format and the user interface.
