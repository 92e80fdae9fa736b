# Verification of kuard

kuard is a demo server: a queue service on top of NATS JetStream, a key-generating workload that can
be reconfigured while it runs, a directory browser (a Go endpoint and a React pane), fault-injecting
health probes, and a route table that serves everything under four prefixes. This project models
those five parts in Dafny and proves what they guarantee for every input, every run and every
interleaving.

| part | files | what is modelled |
|---|---|---|
| queues | `JetStream`, `NatsBackend`, `MemQFifo`, `MemQService`, `MemQSystem`, `MemQAccounting`, `MemQDelivery`, `MemQDrains`, `MemQMiscounts`, `MemQRegistry`, `MemQCalls` | the backend object method by method, the lists it stands for, and the same calls as interleaved steps over an abstract stream store |
| key generation | `KeyGen`, `Workload`, `MemQWorker`, `KeyGenSystem` | the supervisor and the two worker loops as objects, and any number of callers and workers as a transition system |
| file browser | `Text`, `Sorting`, `Paths`, `FsApi`, `Browsing`, `FsBrowser` | the listing handler on 64-bit integers, a client that follows its pages, the browser pane, breadcrumbs and "up" |
| routes | `SimpleRouter`, `RouteTable`, `RouteProperties`, `RouteReach`, `RouteApi` | the first-match router, the table `NewApp` builds, and who serves which path |
| probes | `BoundedHistory`, `ProbeCountdown`, `DebugProbe` | the countdown and its history window |

`dafny verify dfyconfig.toml` checks everything.

## How to read it

Code that changes state is a class whose methods are proved against functions of the old state (the
fields and loops are the source's). Concurrency is a second model of the same code: `MemQSystem` and
`KeyGenSystem` cut each call at its lock acquisitions, atomic operations, library calls and reads of
shared fields no lock protects, and let any number of calls take their steps in any order.
`MemQCalls` shows that a call nothing interferes with does in the interleaved model what the method
does and answers what it answers, and `KeyGenSystem.RestartIsItsSteps` shows the same of a restart,
with any writes into it.

The key generator's lock does not protect its configuration: `LoadConfig` assigns it before it takes
the lock, so a write may land between any two of the reads inside another caller's `Restart`. Each
read of `Enable`, of the queue name, of the server name, and the copy handed to the worker is a step
of its own. Reading `Enable`, setting the gauge and making the context are one step: nothing else
reads or writes what they touch while the lock is held.

JetStream is a map from stream names to a subject, the log of everything ever published, how much of
it was purged, and a cursor per durable consumer. The backend sets no `Retention`, so reading does
not remove: depth falls only by purging. Every JetStream call may fail without effect.

A specification function that a method follows step by step is tied to a second statement of what it
means, in terms of its own: the backend to lists and a map of lists (`MemQFifo`, `MemQService`), the
route table to the HTTP interface written out once (`RouteApi`), lower-casing to letters that are the
same up to case (`Text`), the pane's rows to their columns (`FsBrowser.SortedMeans`), a probe nobody
configured to 200s (`ProbeCountdown.NeverSetNeverFails`).

In a queue's accounting theorems, `names` is the set of queue names a run uses and `q` one that
nobody deletes during it; `Setting` spells that out. What was in a stream before the run is `Base`.

## What the code does that one might not expect

Each of these is proved, with the condition under which it does not happen.

- Queue names are upper-cased for stream names but not for subjects. Two names that differ only in
  case share a stream: creating the second reports "already exists" and registers it, deleting it
  then removes the stream of the first, which stays registered. This can happen exactly when two of
  the names in use collide (`MemQRegistry.NeverOrphansIffDistinct`), and it also makes one queue's
  messages appear as the other's depth (`MemQRegistry.CollisionMiscounts`).
- `drained` counts the depth that was read before the purge, and every step of a drain may fail. On
  a queue that started empty and whose drains take turns, depth plus drained is exact if and only if
  as many messages were purged uncounted as were counted and not purged
  (`MemQDrains.DrainedIsExactIff`); when no drain fails, if and only if no message was stored during
  one. Runs from nothing that end miscounted: a put during a drain, a purge that fails after the
  count, two drains at once (`MemQMiscounts.SlipMiscounts`, `FailedPurgeMiscounts`,
  `OverlapMiscounts`).
- A write of the configuration can land inside another caller's restart. A worker then runs with what
  was stored when it was copied, which need not enable anything, and is of the kind chosen by what
  was stored earlier (`KeyGenSystem.WorkersAreExplained`); any four configurations of which the first
  enables can meet in one worker (`KeyGenSystem.AnyFourCanMeet`). Once every caller is done, what
  runs is what is stored.
- `offset + limit` is added before it is clamped. The listing handler panics exactly when the sum
  exceeds the 64-bit range (`FsApi.HandleList`).
- Every page is a fresh listing, and `sort.Slice` promises nothing about ties. As far as its contract
  goes, the pages of a directory are sure to partition it exactly when no page boundary separates two
  different entries with the same (directory, lower-cased name) key (`FsApi.PagesPartitionIff`): never
  a problem on one page, or without such entries. A sort that resolves ties the same way every time,
  on a listing that comes in the same order every time, repeats one ordering and has no problem.
- The pane empties its list before it loads a directory or a filter, but keeps the old total and "load
  more". Applying an unchanged filter empties the list for good (`FsBrowser.SearchStaysInStepIff`);
  after a directory fails to load, "load more" shows its second page as if it were the first
  (`FsBrowser.FailedEnterSkipsAPage`). `FsBrowser.StaysInStepIff` says for every action exactly when
  the pane keeps agreeing with the server.
- Variants do not nest: `/a/b/pageinfo` is not served like `/b/pageinfo`. Putting a variant in front
  of a path preserves the handler exactly for the paths that are neither redirected nor themselves
  served under a variant (`RouteProperties.VariantTransparency`).

## Model

| member | source | states |
|---|---|---|
| MemQAccounting.StoredIsCounted | pkg/memq/server/nats_backend.go:129-161 | In every reachable state of every interleaving, for a registered queue nobody deletes: what its stream holds plus what was purged is what was there at the start, plus the enqueue counter, plus the puts between Publish and the increment |
| MemQAccounting.DequeuedIsStored | pkg/memq/server/nats_backend.go:163-200 | The dequeue counter plus the gets between delivery and the increment never exceeds what was ever stored |
| MemQAccounting.StatsEntriesAreTruthful | pkg/memq/server/nats_backend.go:202-221 | Every entry of every stats call, finished or not: depth is at most enqueued plus the puts in flight at the depth read, and dequeued at most enqueued plus the puts in flight at the enqueue read plus the dequeues counted between the two loads |
| MemQAccounting.RunIsAccounted | pkg/memq/server/nats_backend.go:87-221 | The invariant behind the accounting holds after every run: coherent state, names kept apart, calls holding the current counters, and stream, counters and calls in flight adding up |
| MemQAccounting.EveryStepIsAViewStep | pkg/memq/server/nats_backend.go:87-221 | Seen from one queue, each of the 21 kinds of step of any call is one of a few moves of a small machine, and steps about other queues are none |
| MemQAccounting.RunIsTruthful | pkg/memq/server/nats_backend.go:202-221 | After every run, all partial and finished stats entries satisfy their bounds, including the ones whose reads are half done |
| MemQDelivery.DeliveredInOrder | pkg/memq/server/nats_backend.go:163-200 | In every interleaving, for a queue nobody deletes: what its gets fetch are messages of its stream in the order of storing, each at most once; every message its consumer went past was fetched or purged; and as many were fetched as are counted as dequeued or about to be |
| MemQDelivery.RunTracks | pkg/memq/server/nats_backend.go:163-200 | The invariant behind it: positions fetched ascend, stay below the cursor, and leave out only what was purged |
| MemQService.ServeAll | pkg/memq/server/nats_backend.go:87-200 | One caller at a time on an empty store: any sequence of creates, deletes, puts, gets and drains, whatever fails in them, is answered as by a map from names to lists, if no two names have the same upper case |
| MemQService.SecondCreateIff | pkg/memq/server/nats_backend.go:84-110 | And not otherwise: two creates in turn are answered so exactly if the names are not the same up to case |
| MemQFifo.Serve | pkg/memq/server/nats_backend.go:129-200 | On one queue, in whatever state: any sequence of puts, gets and drains, failing or not, is answered as by a list from which a get takes the head, a lost consumer included |
| MemQFifo.ServeFresh | pkg/memq/server/nats_backend.go:36-200 | The same from the construction of the backend and the creation of the queue on, starting with the empty list |
| MemQFifo.FirstInFirstOut | pkg/memq/server/nats_backend.go:148-200 | Without a purge, the bodies answered and then those left are the bodies stored, in order: the k-th body answered is the k-th stored |
| MemQFifo.NextGetAnswers | pkg/memq/server/nats_backend.go:163-200 | The next undisturbed get answers the first body not answered yet, or `ErrEmptyQueue` exactly if all were |
| MemQFifo.DrainForgets | pkg/memq/server/nats_backend.go:129-146 | After a purge everything is answered as on a new queue: no earlier body comes back, and the first one put later is next |
| MemQAccounting.ForeignStepKeepsStream | pkg/memq/server/nats_backend.go:84-85 | With names distinct after upper-casing, a step about another queue never touches this queue's stream |
| MemQDrains.DrainedIsPurged | pkg/memq/server/nats_backend.go:129-146 | If drains of a queue take turns, whatever fails in them, then outside a drain: depth + drained + what was purged uncounted + what was purged before the run is what was there + enqueued + puts in flight + what was counted and not purged |
| MemQDrains.DrainedIsExactIff | pkg/memq/server/nats_backend.go:129-146 | In the same setting, on a queue that started empty, depth + drained equals enqueued + puts in flight if and only if as many messages were purged uncounted as were counted and not purged |
| MemQDrains.OnlySlipsAreMissed | pkg/memq/server/nats_backend.go:136-144 | When no call of a drain fails, nothing is counted and not purged, and what is purged uncounted (or about to be) is what was stored during drains |
| MemQDrains.DrainedIsExactIffNothingSlips | pkg/memq/server/nats_backend.go:129-146 | When, besides, no call of a drain fails: if and only if no message was stored between a drain's depth read and its purge |
| MemQMiscounts.OverlappingDrainsCountTwice | pkg/memq/server/nats_backend.go:136-144 | From any state with two drains about to read the depth, a run leads to the depth counted twice and purged once, everything else as it was |
| MemQMiscounts.SlipMiscounts | pkg/memq/server/nats_backend.go:136-159 | For every queue name and message, the run create, depth read, put, count, purge from an empty store ends with nothing running and depth + drained != enqueued + puts in flight |
| MemQMiscounts.FailedPurgeMiscounts | pkg/memq/server/nats_backend.go:136-145 | The same for create, put, depth read, count, failed purge |
| MemQMiscounts.OverlapMiscounts | pkg/memq/server/nats_backend.go:129-145 | The same for create, put, and two drains that both read before either purges |
| MemQDrains.RunKeepsBooks | pkg/memq/server/nats_backend.go:129-146 | The drain books hold after every run in which drains take turns, with the one open drain accounted for at each of its steps, and failed reads and purges booked |
| MemQRegistry.RegistryMatchesStore | pkg/memq/server/nats_backend.go:87-127 | With distinct upper-cased names, in every reachable state with no create or delete half done: a name is registered iff the last create or delete of it that took effect was a create, and a stream exists iff its queue is registered or it was there at the start and never deleted |
| MemQRegistry.OwnedIffLastWasCreate | pkg/memq/server/nats_backend.go:87-127 | In every state and for any names, a queue is registered or being registered iff its last effective create or delete was a create |
| MemQRegistry.RunTracks | pkg/memq/server/nats_backend.go:87-127 | In the middle of creates and deletes, too: a stream exists iff its queue is registered and not being deleted, or is being created, or the stream was there at the start and never deleted |
| MemQRegistry.NeverOrphansIffDistinct | pkg/memq/server/nats_backend.go:84-127 | No run over a set of names, from any store whose streams carry their own subjects, ever leaves a registered queue without its stream if and only if no two of the names have the same upper case |
| MemQRegistry.CollisionOrphans | pkg/memq/server/nats_backend.go:103-125 | For any two colliding names, the run create, create, delete leaves the first registered and its stream gone |
| MemQRegistry.CollisionMiscounts | pkg/memq/server/nats_backend.go:84-109 | For any two colliding names, one message put to one of them is depth 1 of the other, which has enqueued nothing |
| MemQSystem.StepStaysCoherent | pkg/memq/server/nats_backend.go:87-221 | Every step keeps the locks exclusive, the registry pointing at cells of its own names, and every pending call holding a cell of its own queue |
| MemQSystem.CountersNeverDecrease | pkg/memq/server/nats_backend.go:139-197 | No interleaving decreases any counter |
| MemQSystem.StatsNamesAreDistinct | pkg/memq/server/nats_backend.go:202-221 | No stats call reports a name twice, whatever runs beside it |
| MemQCalls.AloneIsARun | pkg/memq/server/nats_backend.go:87-200 | A call taking its steps with nothing between them is a run of the interleaved model |
| MemQCalls.CreateIsItsSteps | pkg/memq/server/nats_backend.go:87-110 | Alone, a create ends in the state and with the answer of `CreateQueue`, whatever the outcome of AddStream |
| MemQCalls.DeleteIsItsSteps | pkg/memq/server/nats_backend.go:112-127 | Alone, a delete ends in the state and with the answer of `DeleteQueue` |
| MemQCalls.PutIsItsSteps | pkg/memq/server/nats_backend.go:148-161 | Alone, a put stores and counts its message or changes nothing, and answers accordingly, a failed id included |
| MemQCalls.GetIsItsSteps | pkg/memq/server/nats_backend.go:163-200 | Alone, a get ends in the state and with the answer of `GetMessage`, for every way to subscribe and every failure |
| MemQCalls.DrainIsItsSteps | pkg/memq/server/nats_backend.go:129-146 | Alone, a drain ends in the state and with the answer of `DrainQueue`, for every failure of its two calls |
| MemQCalls.StatsIsItsSteps | pkg/memq/server/nats_backend.go:202-221 | Alone, a stats call that walks the registry in any order has gathered exactly the entries `Stats` reports in that order, and changes nothing |
| JetStream.Context.AddStream | pkg/memq/server/nats_backend.go:96-110 | The library call as the backend sees it: added, name in use with another configuration, or refused because the subject is taken or the call failed |
| JetStream.Context.DeleteStream | pkg/memq/server/nats_backend.go:122-124 | Removes an existing stream, or fails without effect |
| JetStream.Context.StreamInfo | pkg/memq/server/nats_backend.go:137-140 | Reports the number of stored messages, not those unread |
| JetStream.Context.PurgeStream | pkg/memq/server/nats_backend.go:142-144 | Empties an existing stream, keeping subject and cursors |
| JetStream.Context.Publish | pkg/memq/server/nats_backend.go:155-157 | Stores the body in the stream with that subject, whatever the stream's name |
| JetStream.Context.BindSubscribe | pkg/memq/server/nats_backend.go:171 | Binds a durable cursor to the named stream if it carries the subject; reports a lost consumer apart from other failures |
| JetStream.Context.PullSubscribe | pkg/memq/server/nats_backend.go:177 | Binds a durable cursor to whichever stream carries the subject |
| JetStream.Context.Fetch | pkg/memq/server/nats_backend.go:184-194 | Delivers the first message that is neither purged nor behind the durable cursor, moves the cursor past exactly that one, and finds nothing only if there is none |
| JetStream.NextIsNext | pkg/memq/server/nats_backend.go:171-196 | The next message is the first that is neither purged nor behind the consumer's cursor, and there is no other |
| NatsBackend.NatsBackend.constructor | pkg/memq/server/nats_backend.go:36-55 | Starts with no registered queue over whatever streams exist |
| NatsBackend.StreamNamesMeet | pkg/memq/server/nats_backend.go:84-85 | Two queues share a stream name, or a consumer name, exactly if their names are the same up to case |
| NatsBackend.NatsBackend.RegisterQueue | pkg/memq/server/nats_backend.go:104-108 | A new name points at fresh zero counters; counters of earlier registrations stay what they were |
| NatsBackend.NatsBackend.AddDrained | pkg/memq/server/nats_backend.go:139 | Only the drained counter of that registration changes |
| NatsBackend.NatsBackend.AddEnqueued | pkg/memq/server/nats_backend.go:158 | Only the enqueued counter of that registration changes |
| NatsBackend.NatsBackend.AddDequeued | pkg/memq/server/nats_backend.go:197 | Only the dequeued counter of that registration changes |
| NatsBackend.NatsBackend.CountDepth | pkg/memq/server/nats_backend.go:137-140 | Adds the depth to the drained counter if it can be read, and changes nothing else |
| NatsBackend.NatsBackend.ObtainStream | pkg/memq/server/nats_backend.go:96-109 | Makes or adopts the stream and registers the name, or changes nothing |
| NatsBackend.NatsBackend.Store | pkg/memq/server/nats_backend.go:155-158 | Stores and counts, or changes nothing |
| NatsBackend.NatsBackend.Subscribe | pkg/memq/server/nats_backend.go:170-181 | Binds to the queue's own stream or, if its consumer is lost, to the stream that carries its subject; fails otherwise |
| NatsBackend.NatsBackend.Take | pkg/memq/server/nats_backend.go:170-197 | Receives one message and counts exactly that |
| NatsBackend.NatsBackend.ReadStat | pkg/memq/server/nats_backend.go:207-218 | The entry of one queue, exactly if its stream answers |
| NatsBackend.NatsBackend.WalkQueues | pkg/memq/server/nats_backend.go:206-219 | The entries in the order of the walk, which visits every registered name once |
| NatsBackend.StatsAreExact | pkg/memq/server/nats_backend.go:202-221 | In whatever order the registry is walked, the entries are those of the queues that answer, each once, with its own numbers |
| NatsBackend.NatsBackend.PurgeQueue | pkg/memq/server/nats_backend.go:142-145 | Empties the queue's own stream and changes no counter |
| NatsBackend.NatsBackend.Receive | pkg/memq/server/nats_backend.go:170-194 | What a get does to the store, the fallback after a lost consumer included, with the error for each way it can fail, and the body delivered |
| NatsBackend.NatsBackend.CreateQueue | pkg/memq/server/nats_backend.go:87-110 | Success and "already exists" leave the name registered, every other error changes nothing, and a newly registered name gets fresh zero counters |
| NatsBackend.NatsBackend.DeleteQueue | pkg/memq/server/nats_backend.go:112-127 | Success removes registration and stream, any error changes nothing |
| NatsBackend.NatsBackend.DrainQueue | pkg/memq/server/nats_backend.go:129-146 | Counts the depth if it could be read, purges, and reports "does not exist" exactly for unregistered names |
| NatsBackend.NatsBackend.PutMessage | pkg/memq/server/nats_backend.go:148-161 | The body is appended to the stream that carries the queue's subject and counted, even if no id can be made for the reply; any other error changes nothing, and which error is exact |
| NatsBackend.NatsBackend.GetMessage | pkg/memq/server/nats_backend.go:163-200 | The body is that of the first message the queue's consumer is neither past nor was purged, whose cursor moves just past it; it is counted and stays stored; the stream is the one the subscription answers lead to; timeouts and an exhausted stream read as empty, other failures as errors, and a failed id as an empty reply without error |
| NatsBackend.NatsBackend.Stats | pkg/memq/server/nats_backend.go:202-221 | Exactly one entry for every registered queue whose stream answers, with its depth and its own counters |
| KeyGenSystem.OneWorkloadAtATime | pkg/keygen/keygen.go:76-107 | In every interleaving, writes into open restarts included: a context is live iff it is the one `cancelFunc` cancels; outside restarts the gauge is 1 iff there is one; with no caller between its write and the end of its restart, one exists iff the stored configuration enables it, and its worker has exactly that configuration and the kind it selects |
| KeyGenSystem.EveryStateIsTidy | pkg/keygen/keygen.go:76-107 | The invariant behind it in every state, each stage of an open restart included: what the restart has read is what is stored if nobody else is pending |
| KeyGenSystem.WorkersAreExplained | pkg/keygen/keygen.go:86-103 | Every worker ever started comes from one restart: enabled by what was stored at its read of Enable, of the kind stored at its reads of queue and server, with the configuration stored at the copy |
| KeyGenSystem.AnyFourCanMeet | pkg/keygen/config.go:69-73 | Conversely, for any four configurations of which the first enables, a run ends with one live worker that has the fourth, of the kind the second and third select |
| KeyGenSystem.RestartIsItsSteps | pkg/keygen/keygen.go:76-107 | The object's `Restart`, with any writes into it, is the run of its steps and those writes |
| KeyGenSystem.AtMostOneLiveContext | pkg/keygen/keygen.go:80-89 | Any two uncancelled contexts are the same one |
| KeyGenSystem.HistoryIsWindow | pkg/keygen/keygen.go:109-124 | For every order of prints by any number of workers, `history` is the last 20 entries of the full log, numbered without gaps up to `nextHistoryID` - 1 |
| KeyGenSystem.PlainIdsAreConsecutive | pkg/keygen/keygen.go:91-103 | Plain workloads get ids 0, 1, 2, ... in order of starting; MemQ workers use none |
| KeyGenSystem.EveryWorkerIsAccounted | pkg/keygen/workload.go:38-96 | In every interleaved log, the lines that name a plain workload are a prefix of start, item 1, ..., item k, exit; its items respect the quota; it leaves uncancelled only with the quota met or the timer fired |
| KeyGenSystem.ExitIsDeserved | pkg/keygen/workload.go:69-74 | The process is ended only by a worker configured to exit on completion, a plain one with quota met or timer fired, a MemQ one at an empty result |
| KeyGenSystem.CompletionExits | pkg/keygen/workload.go:69-74 | Conversely: a worker that is gone while the process lives was cancelled or is a plain one not to exit on completion, and a MemQ worker goes on after an empty result only if it is not to exit |
| KeyGenSystem.EveryMessageIsAnItem | pkg/keygen/memq.go:47-69 | In every interleaving a MemQ worker has printed one item for every message it was handed, but for one it may be about to print |
| KeyGenSystem.MemQWorkersLeaveCancelled | pkg/keygen/memq.go:71-79 | A MemQ worker leaves its loop only because its context was cancelled |
| KeyGenSystem.CancelledWorkersFallSilent | pkg/keygen/keygen.go:80-84 | In every continuation after its context is cancelled, a worker of either kind prints at most two more lines, at most one of them an item |
| KeyGenSystem.CancelledRun | pkg/keygen/workload.go:46-67 | The measure behind that: lines printed plus lines still possible never grows once cancelled |
| KeyGenSystem.CheckDecides | pkg/keygen/workload.go:51-67 | The interleaved check can take a choice if and only if the sequential loop can decide so, and leads where the decision leads |
| KeyGen.KeyGen.Restart | pkg/keygen/keygen.go:76-107 | For any writes of others between its reads of the configuration, the new state is that of the section's steps; old contexts are kept, new ones are fresh |
| KeyGen.KeyGen.ReadKind | pkg/keygen/keygen.go:91-97 | The kind follows from what is stored at the reads of queue and server, the copy from what is stored then |
| KeyGen.UndisturbedRestart | pkg/keygen/keygen.go:76-107 | A restart nobody writes into leaves one live context iff the stored configuration enables it, with its worker and kind, and cancels exactly the current one |
| KeyGen.KeyGen.constructor | pkg/keygen/keygen.go:61-69 | Nothing configured, printed, started or live |
| KeyGen.KeyGen.CancelRunning | pkg/keygen/keygen.go:80-84 | Cancels the current context and no other |
| KeyGen.KeyGen.StartConfigured | pkg/keygen/keygen.go:87-103 | One fresh uncancelled context, a worker with the configuration as it is at the copy, an id only for plain ones |
| KeyGen.KeyGen.WorkloadOutput | pkg/keygen/keygen.go:109-124 | The object's critical section is the `Printed` step: append, trim to 20, number |
| KeyGen.KeyGen.LoadConfig | pkg/keygen/config.go:69-73 | Write, then restart, with any writes of others in between |
| Workload.Workload.StartWork | pkg/keygen/workload.go:38-49 | Against every sequence of channel observations: the items produced are the polls before the first that stops the loop, the lines are start, items, exit, and the process exits exactly on an uncancelled stop with ExitOnComplete |
| Workload.Workload.IsDone | pkg/keygen/workload.go:51-67 | Stops exactly when cancelled, timed out or at quota, and prints the exit line exactly then |
| Workload.Workload.Done | pkg/keygen/workload.go:69-74 | Prints the exit line, and exits the process exactly when uncancelled with ExitOnComplete |
| Workload.Workload.ItemDone | pkg/keygen/workload.go:76-96 | Counts one item and prints it with its number and limit |
| Workload.WhatARunDid | pkg/keygen/workload.go:38-96 | A run prints "starting" and then item k of n (of no limit without a quota) for k = 1, 2, ...; no check it passed was cancelled, timed out or at the quota, and the one it stopped at was |
| Workload.DecideMeans | pkg/keygen/workload.go:51-67 | A check goes on exactly if the context is live, no timer that exists fired and no quota is met; cancellation wins only if it alone is ready or is taken |
| Workload.QuotaBoundsItems | pkg/keygen/workload.go:62-65 | With a quota, items never exceed it under any behaviour of clock and context, and the loop ends by the poll after it |
| Workload.UndisturbedMeetsQuota | pkg/keygen/workload.go:46-67 | Neither cancelled nor timed out, exactly NumToGen items are produced and the loop ends because of the quota |
| Workload.ExitNeedsCompletion | pkg/keygen/workload.go:51-74 | An uncancelled stop means quota met or timer fired |
| MemQWorker.MemQWorker.StartWork | pkg/keygen/memq.go:47-69 | Against every sequence of cancellations and Dequeue results: one line a round until the loop ends, shutdown exactly on cancellation, process exit exactly on an empty result with ExitOnComplete and with ExitCode |
| MemQWorker.MemQWorker.IsDone | pkg/keygen/memq.go:71-79 | Stops, with the shutdown line, exactly on cancellation |
| MemQWorker.MemQWorker.ItemDone | pkg/keygen/memq.go:81-88 | Prints one item |
| MemQWorker.WhatARunDid | pkg/keygen/memq.go:46-70 | Messages, errors and empty results are printed each as what they are, and the loop stops at the first cancelled round or at an empty result with ExitOnComplete |
| MemQWorker.OneItemAMessage | pkg/keygen/memq.go:50-67 | For every result stream the items reported are exactly the messages received; errors lose none |
| MemQWorker.DrainsTheQueueAndExits | pkg/keygen/memq.go:47-69 | With ExitOnComplete, a queue of n messages, finitely many errors, and nobody else using it, exactly n items are reported and the worker ends at an empty result |
| FsApi.HandleList | pkg/fsapi/api.go:39-126 | For every query and directory: an unreadable directory is an error, an overflowing offset + limit a panic, and everything else the clamped page of a list that holds exactly the entries in whose name the filter occurs up to case, directories first, no name behind one it precedes letter by letter; `cwd`, `q`, `limit`, `offset`, `total`, `returned` and `hasMore` are right |
| FsApi.ListSorted | pkg/fsapi/api.go:68-102 | Building, filtering if there is a filter, and sorting: such a list |
| FsApi.ServerOrderLists | pkg/fsapi/api.go:84-102 | The matching entries in server order are such a list, as often as the directory has them |
| FsApi.MatchingIsFound | pkg/fsapi/api.go:84-94 | The matching entries are those in whose name the filter occurs up to case; an empty filter occurs everywhere |
| FsApi.FilterIgnoresCase | pkg/fsapi/api.go:86-89 | Changing the case of the filter's letters does not change the list |
| FsApi.EntryOrderByLetters | pkg/fsapi/api.go:97-102 | Two entries tie exactly if both or neither are directories and the names are the same up to case; otherwise directories, then the first position where the names differ, a proper prefix first |
| Text.CasesMerge | pkg/fsapi/api.go:86-89 | Lower-casing and upper-casing identify exactly the texts that are the same letter by letter up to case |
| Text.ContainsIsOccurs | pkg/fsapi/api.go:89 | One lower-cased text contains another exactly if the other can be read in it up to case |
| Text.LexLessIsPrecedes | pkg/fsapi/api.go:101 | The order of lower-cased texts is decided at the first position that differs up to case, a capital counting as its small letter |
| FsApi.PageOfIsPage | pkg/fsapi/api.go:104-124 | The reply's fields determine the page and are determined by it |
| FsApi.CutPage | pkg/fsapi/api.go:104-124 | Panics if and only if offset + limit exceeds 64 bits; otherwise the page the request is meant to get |
| FsApi.ReadPaging | pkg/fsapi/api.go:50-61 | A number from 1 to 5000 is the limit, anything else means 200; a number from 0 on is the offset, anything else means 0 |
| FsApi.SortSlice | pkg/fsapi/api.go:97-102 | In place, into order, keeping every entry, promising nothing about ties |
| FsApi.BuildEntries | pkg/fsapi/api.go:68-82 | One entry per directory entry, in order, field by field: name, path and error only where metadata could not be read, and a target only for readable links |
| FsApi.FilterEntries | pkg/fsapi/api.go:85-94 | Exactly the entries in whose name the filter can be read at some position, letter by letter up to case, in order |
| FsApi.EntryOrderIsStrictWeak | pkg/fsapi/api.go:97-102 | The comparator is a strict weak order whose ties are exactly equal (isDir, lower-case name) keys |
| FsApi.SameKeysWhateverTheSort | pkg/fsapi/api.go:96-102 | Any two sorted arrangements of the same entries have the same key sequence |
| FsApi.FilterThenSortIsSortThenFilter | pkg/fsapi/api.go:84-102 | Filtering before or after sorting shows the same keys |
| FsApi.PageKeysIgnoreTheSort | pkg/fsapi/api.go:96-124 | The keys of every page, and everything else in the reply, do not depend on how the unstable sort resolves ties |
| FsApi.PagesTile | pkg/fsapi/api.go:104-113 | Pages at offsets 0, limit, 2*limit, ... are consecutive pieces of the full list, and `hasMore` says whether something is left |
| FsApi.PagesPartitionIff | pkg/fsapi/api.go:96-112 | With one listing per page, each resolving ties as it likes, the pages together are a rearrangement of the matching entries if and only if no boundary at a multiple of the limit separates two different entries with the same key |
| FsApi.PagesPartitionWhen | pkg/fsapi/api.go:96-112 | So they are whenever the directory fits on one page, or no two different entries share a key |
| FsApi.ServedSoFar | pkg/fsapi/api.go:96-112 | If no boundary splits a tie, what any number of requests returned is, up to order, a prefix of every ordering |
| FsApi.ServedKeys | pkg/fsapi/api.go:96-112 | The keys of the pages in turn are those of any one ordering, split ties or not |
| FsApi.SameOrderWithoutTies | pkg/fsapi/api.go:96-102 | Without shared keys the ordering is unique |
| Browsing.BrowseAll | web/components/FSBrowser.tsx:20-34 | A client that calls the handler itself, with any limit up to 5000, and follows `offset + limit` while `hasMore`: it makes exactly as many requests as it takes and gathers one page of each listing in turn, unless an offset would overflow |
| Browsing.NextPage | pkg/fsapi/api.go:104-124 | One such request: the k-th piece of an ordering of the matching entries, with `hasMore` right |
| Browsing.TakesExactlyIff | web/components/FSBrowser.tsx:69 | That is max(1, ceil(total / limit)) requests |
| Browsing.BrowsingShows | pkg/fsapi/api.go:96-124 | What it gathers has the keys of any ordering of the directory, in order, and every entry exactly once if no boundary splits a tie |
| FsBrowser.BrowsingAccumulates | web/components/FSBrowser.tsx:20-34 | After n presses of "load more" the pane holds exactly the first (n + 1) * limit entries of the server's list, and offers more exactly while something is missing |
| FsBrowser.BrowsingEnds | web/components/FSBrowser.tsx:69 | "Load more" is offered until exactly max(1, ceil(total / limit)) requests were made, and then every entry is there once, in server order |
| FsBrowser.StaysInStepIff | web/components/FSBrowser.tsx:20-86 | For every action, with a fetch that succeeds or fails: the pane goes on showing a prefix of the server's list if and only if the action is "load more", or a load that happens and succeeds, or there was and is nothing to show, or (for a failed clearing) the unfiltered list begins the same and is as long |
| FsBrowser.SessionStaysInStepIff | web/components/FSBrowser.tsx:20-86 | The pane is in step throughout a session if and only if each of its actions meets that condition |
| FsBrowser.FailedEnterSkipsAPage | web/components/FSBrowser.tsx:36-69 | While there is more, entering a directory whose load fails and asking for more shows its second page as the first, with no error |
| FsBrowser.SearchStaysInStepIff | web/components/FSBrowser.tsx:37-70 | Applying a filter keeps the pane in step if and only if the text changed or the list is empty |
| FsBrowser.MoreStaysInStep | web/components/FSBrowser.tsx:69 | "Load more" keeps the pane in step whether its fetch succeeds or fails |
| FsBrowser.ByNameSortIsIdentity | web/components/FSBrowser.tsx:53-67 | In the initial sort state any stable re-sort of any accumulated pages changes nothing |
| Sorting.StableSortIsUnique | web/components/FSBrowser.tsx:54-66 | For a strict weak order there is exactly one stable sort of a list: sorted, with the elements of every tie class in their order |
| FsBrowser.RowsAreServerPages | web/components/FSBrowser.tsx:54-67 | So after any number of pages the rows, by any stable sort, are the server's pages as received |
| FsBrowser.DescendingReversesBlocks | web/components/FSBrowser.tsx:53-67 | For every column without ties and any stable sort, descending reverses the directory block and the file block of ascending, directories first in both |
| FsBrowser.BeforeIsStrictWeak | web/components/FSBrowser.tsx:56-65 | The client comparator is a strict weak order for every column and direction |
| FsBrowser.FSBrowser.FetchPage | web/components/FSBrowser.tsx:20-34 | A failed fetch changes only the error, a reply replaces or extends the entries and sets the rest |
| FsBrowser.FetchShows | web/components/FSBrowser.tsx:20-34 | A fetch field by field: the error or none, and with a reply the directory, total, clamped offset, `hasMore` and the page behind what is kept |
| FsBrowser.ActionsLead | web/components/FSBrowser.tsx:36-86 | Where every action leads, failed fetches included: up to the directory that was entered, into an entry's path, to a crumb's, with the filter dropped or set |
| FsBrowser.FSBrowser.constructor | web/components/FSBrowser.tsx:8-37 | The first render and the load it causes |
| FsBrowser.FSBrowser.Reload | web/components/FSBrowser.tsx:37 | The effect: a load from the start exactly when directory or filter changed |
| FsBrowser.FSBrowser.MoveTo | web/components/FSBrowser.tsx:81 | Opening a directory resets filter and list before it loads |
| FsBrowser.FSBrowser.LoadMore | web/components/FSBrowser.tsx:69 | Fetches the next page at offset + limit exactly when there is more |
| FsBrowser.FSBrowser.ApplySearch | web/components/FSBrowser.tsx:70 | Empties the list, and reloads exactly when the filter changed |
| FsBrowser.FSBrowser.ClearSearch | web/components/FSBrowser.tsx:86 | Drops the filter and reloads exactly when there was one |
| FsBrowser.FSBrowser.Go | web/components/FSBrowser.tsx:39 | Enters directories only, resetting filter and list |
| FsBrowser.FSBrowser.GoUp | web/components/FSBrowser.tsx:40 | Moves to the parent, and does nothing at the root |
| FsBrowser.FSBrowser.ToggleSort | web/components/FSBrowser.tsx:53 | Flips an ascending current column, otherwise ascending |
| FsBrowser.FSBrowser.Sorted | web/components/FSBrowser.tsx:54-67 | Directories before files; within each, sizes, times or names (letter by letter up to case) ascend or descend as the sort state says; entries equal in that field keep their order; the entries stay as they are |
| FsBrowser.SortedMeans | web/components/FSBrowser.tsx:54-67 | Being a stable sort by the comparator is exactly that, for every column and direction |
| Paths.Crumbs | web/components/FSBrowser.tsx:42-51 | The accumulation over the split path yields, for every clean path, "/" and then one crumb per name, titled with it and leading to the path that ends with it |
| Paths.TrailIs | web/components/FSBrowser.tsx:42-51 | The trail crumb by crumb |
| Paths.UpWalksTheCrumbs | web/components/FSBrowser.tsx:40-51 | Pressing "up" k times lands on the k-th crumb from the end; the last crumb is the path itself |
| Paths.FirstCrumbIsRoot | web/components/FSBrowser.tsx:40-51 | As many presses as there are names reach "/", the first crumb |
| Paths.UpUndoesEntering | pkg/fsapi/api.go:75 | "Up" after entering any entry of any clean directory returns to it |
| Paths.UpShortens | web/components/FSBrowser.tsx:40 | "Up" keeps the path clean and strictly shortens it |
| Paths.CleanIsRendered | web/components/FSBrowser.tsx:43 | Every clean path is made of slash-free names, so the crumb theorems cover all of them |
| RouteProperties.VariantTransparency | pkg/app/app.go:176-216 | For every variant, method, UI and suffix: the prefixed path has the handler kind of the suffix if and only if it is not a redirected GET and the suffix is not itself served under a variant |
| RouteProperties.NestedVariantsDiffer | pkg/app/app.go:177-216 | A concrete nested variant whose handler differs |
| RouteProperties.WhoServes | pkg/app/app.go:176-244 | Who serves any path: a variant's redirect or row, an unprefixed row, or the UI |
| RouteProperties.VariantServes | pkg/app/app.go:177-216 | A variant's rows serve exactly the paths under it, with the kinds the unprefixed rows give the rest |
| RouteProperties.UICatchesEveryGet | pkg/app/app.go:218-244 | With a UI mounted every GET is served, and nothing but a GET reaches the UI |
| RouteProperties.LaterRoutesNeverOverride | pkg/app/simplemux.go:44-58 | Registering more routes never changes the handler of a request already served |
| RouteReach.EveryRouteIsReached | pkg/app/app.go:177-244 | Every one of the registered routes, whatever the UI, is the first match for some path that starts with a slash, and serves it |
| RouteApi.EveryRequestIsServed | pkg/app/app.go:176-244 | For every UI, method and path: the handler, with its page base, mount, strip prefix, probe name or redirect target, that the HTTP interface written out once as a function names, or the UI, or none |
| RouteApi.InterfaceIsServed | pkg/app/app.go:177-216 | Under each of the four prefixes every request the interface lists gets the handler it names, whatever the rest of a wildcard path is |
| RouteApi.CommonIsApi | pkg/app/app.go:189-215 | The rows of a prefix serve exactly the interface: nothing else, and nothing left out |
| RouteApi.HandleRequest | pkg/app/app.go:165-250 | The same of the application itself, from its construction to the handler its router picks |
| RouteTable.NewApp | pkg/app/app.go:176-244 | The registration loop builds exactly the table, in order |
| RouteTable.AddPrefix | pkg/app/app.go:178-215 | One turn of the loop: redirects for non-root prefixes, then the common rows |
| RouteTable.AddPrefixes | pkg/app/app.go:177-216 | The loop, for any list of prefixes |
| RouteTable.MountUI | pkg/app/app.go:218-244 | The rows of each of the four UI situations |
| RouteTable.AddCommon | pkg/app/app.go:189-215 | The rows every prefix gets |
| RouteTable.AddRedirects | pkg/app/app.go:178-186 | The two redirects of a variant and their target |
| RouteTable.AddPages | pkg/app/app.go:189-198 | Page info and metrics |
| RouteTable.AddStatic | pkg/sitedata/sitedata.go:53-55 | One wildcard row per static mount |
| RouteTable.AddFs | pkg/fsapi/api.go:32-37 | The three listing rows |
| RouteTable.AddMem | pkg/memory/api.go:42-46 | The memory rows |
| RouteTable.AddProbe | pkg/debugprobe/probe.go:53-56 | The probe rows |
| RouteTable.AddKeyGen | pkg/keygen/keygen.go:71-74 | The key generation rows |
| RouteTable.AddMemQ | pkg/memq/server/api.go:36-43 | The queue rows |
| RouteApi.MemQIsSound | pkg/memq/server/api.go:36-43 | Each queue row names the handler of its method and path: PUT creates, DELETE deletes, POST drains, dequeues and enqueues, GET reports |
| SimpleRouter.SimpleRouter.Handle | pkg/app/simplemux.go:29-41 | Appends one route |
| SimpleRouter.SimpleRouter.ServeHTTP | pkg/app/simplemux.go:44-58 | The loop serves with the first matching route and no other |
| SimpleRouter.DispatchIsFirstMatch | pkg/app/simplemux.go:47-56 | A matching route no earlier route matches is the one that serves |
| SimpleRouter.NothingMatchesNothingServes | pkg/app/simplemux.go:57 | "Not found" if and only if no route matches |
| SimpleRouter.DispatchAppend | pkg/app/simplemux.go:29-31 | Later routes serve only what earlier ones leave unmatched |
| SimpleRouter.WildcardMatches | pkg/app/simplemux.go:66-75 | A wildcard pattern matches exactly the paths extending what precedes its star |
| SimpleRouter.PrefixedMatch | pkg/app/simplemux.go:61-77 | A star-free prefix on both pattern and path changes nothing |
| DebugProbe.Probe.constructor | pkg/debugprobe/probe.go:49-51 | Nothing to fail, no history, no id given |
| ProbeCountdown.NeverSetNeverFails | pkg/debugprobe/probe.go:49-121 | For every sequence of requests with no set in it, each is answered 200, the countdown stays 0, and the log holds one 200 per request |
| DebugProbe.Probe.Handle | pkg/debugprobe/probe.go:102-121 | 200 exactly if the countdown is 0, else 500, which is what the whole history of sets and requests calls for; a positive countdown falls by one; the entry is logged with the next id; the message agrees |
| DebugProbe.Probe.RecordRequest | pkg/debugprobe/probe.go:123-134 | Appends the entry under the next id and keeps the last 20 |
| DebugProbe.Probe.LockedGet | pkg/debugprobe/probe.go:70-86 | The reply is exactly the stored history in reverse, id and status as stored and both renderings of its time in their places, with the countdown in force |
| DebugProbe.Probe.APIPut | pkg/debugprobe/probe.go:88-100 | A bad body changes nothing; otherwise the countdown is set and, after whatever others do between the two critical sections, the probe is reported as it then is |
| DebugProbe.Probe.Interleaved | pkg/debugprobe/probe.go:97-99 | Any critical sections of others, in turn, are accounted for |
| DebugProbe.Probe.SetConfig | pkg/debugprobe/config.go:31-36 | Sets the countdown, leaves history and ids alone |
| ProbeCountdown.CountdownRun | pkg/debugprobe/probe.go:106-115 | After any past, a set to c makes the next k requests answer 500 or 200 exactly as the countdown says, appended to the log |
| ProbeCountdown.CountdownFailures | pkg/debugprobe/probe.go:106-115 | Of those k, min(c, k) fail for c > 0 leaving max(0, c - k), all fail for c < 0, none for 0 |
| ProbeCountdown.LogIsNumbered | pkg/debugprobe/probe.go:123-134 | Ids are consecutive, and the stored window ends at lastID |
| BoundedHistory.AppendKeepsWindow | pkg/debugprobe/probe.go:130-133 | Trimming after each append yields the window over the whole log |

## Left out

- NATS itself: the wire, reconnects, lost acknowledgements and redelivery. A JetStream call succeeds or fails without effect; a lost consumer is one of its answers.
- The backend being absent because NATS could not be reached at startup.
- MemQDrains.DrainedIsExactIff: assumes that drains of a queue take turns; two at once count twice (`MemQMiscounts.OverlapMiscounts`).
- Streams written by anyone but the backend during a run; what they held before it is covered.
- MemQService.ServeAll: starts from an empty store and has one caller; streams left from earlier runs and calls at the same time are in the interleaved theorems.
- Message ids and timestamps, beyond whether an id could be made.
- The HTTP hop between the MemQ client and server; the worker is modelled against `Dequeue`'s documented results (pkg/memq/client/client.go:106-131).
- Integer width outside pkg/fsapi: counters, ids and item counts are unbounded.
- RSA keys, fingerprints, message wording, clocks and sleeps: opaque. A timer is an event that may fire at any moment, and `select` may take any ready case.
- KeyGenSystem.WorkersAreExplained: the assignment in `LoadConfig` (pkg/keygen/config.go:70) and the copy at keygen.go:92 and 97 are single steps, so a copy torn between two configurations is not modelled; writes between the reads of a restart are.
- `keys_generated_total` and the probe's `ProbePath`.
- `filepath.Clean`, `os.ReadDir`, symbolic link lookup, `strings.TrimSpace` and JSON: the handler is modelled from the cleaned path and the directory contents on.
- Letters outside ASCII when changing case.
- Overlapping fetches in the pane, and directories that change between two pages, other than by the order of ties.
- The sorting algorithms of the libraries: the server's is any sort, the client's any stable sort.
- The memory, environment, DNS and static-site handlers, of which only the routes are modelled, and the TLS, logging and metrics around them.
