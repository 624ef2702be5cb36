# strfry, modelled in Dafny

A model of the core of strfry, a nostr relay, with proofs about it: the query
engine, the store writer, the live-subscription index, the hand-over from stored
to live events, and the data structures underneath. `dafny verify dfyconfig.toml`
checks everything.

## What is proved

* **Queries.** For every filter group, every snapshot and every clock, a query ends
  and sends exactly the brute-force answer of its filters in order (newest first, at
  most `limit`, each event once). A slice is cut short only when the clock, looked at
  after every 2000 units of work, says that the time is up, and never before the scan
  has gone round: so a bounded number of slices on one snapshot is enough, however
  short each of them is. If the store changes between
  slices it still sends every matching event that stays stored and has fewer than
  `limit` matching events ahead of it, nothing newer than its start, nothing twice,
  and only events that are stored at that moment. Any number of queries may take
  their slices in turn: each that is not removed gets its answer, and the scheduler
  comes to the end of its queue in a bounded number of turns.
* **Store.** The fast writer refines a one-line specification and stores behind each
  event the JSON text that came with it. After every write no
  stored event is the target of a stored deletion, every slot holds one event, and
  the "unprocessed deletion" error cannot occur. The final content is independent
  of order and batching *if and only if* the submitted events are settled: whenever
  a deletion targets an event without a slot, or the best event of a slot, some
  deletion that is not targeted itself does so too, and in the second case each
  event of the slot is hit by such a deletion. For a set that is not settled two
  orders with different outcomes are constructed.
* **Runs.** Over all interleavings of write batches and the two transactions of
  expiry sweeps, levIds are never reused and a sweep deletes what it selected.
* **Live index.** The inverted index agrees with trying every filter on every event,
  notifies each subscription once, and holds exactly the installed filters. The
  ephemeral-kind counters, which all monitor threads share, count the filters of all
  of them, so the ingester is told of subscribers exactly when there are some.
* **Protocol.** In every interleaving of clients, worker, monitor, writers and
  sweeps, each subscriber gets each stored matching event exactly once, live ones
  after EOSE. For events up to the start of its query this holds if, of the events
  stored when the query began, fewer than `limit` matches are ahead. A closed
  subscription is nowhere once the closing message has passed both threads, and is
  silent from then on. The worker thread, its scheduler with all its query objects,
  refines the protocol: everything it does on a message or in a turn is a run of the
  protocol's steps. From every initial state every request can be answered in full.
* **Trees.** Negentropy trees mirror the store through every write, delete and
  build. A build fills a tree *if and only if* the filter's limit is not smaller
  than the number of matching events. `negentropy add` also takes an array of
  filters; the command accepts it, but from then on every write fails, because a
  stored filter is read back as a single object: writes go on *if and only if* the
  filter that was added is not an array. In every run of writes, deletions, added
  filters and builds, by any number of writers with a filter cache each, the trees
  stay exact, every stored event keeps its own text, and no cache is ever taken for a
  current one that is not.
* **Pipeline.** No input is lost, doubled or reordered. An input counts as written
  *if and only if* a commit accepted it, as a duplicate *if and only if* its event was
  known or a commit refused it, and as rejected *if and only if* its validation failed;
  a commit accepts what the writer reports as written. A run that has ended, with
  nothing written after a flush, ended cleanly (the writer stopped by itself and the
  live counter is zero) *if and only if* every packed event that was written is at
  least 88 bytes long, the writer never reads the tags of one whose tags do not
  decode (a duplicate is dropped before that), and the stored negentropy filters can
  be read back whenever there is something to write. The writer takes an empty event
  for its own end marker; a shorter one, one with broken tags and a filter that is an
  array make an exception leave the writer's thread. `strfry import --fried` checks
  neither length nor tags: a line of 64 bytes or more whose `fried` member is empty
  or short parses to such an event (`Fried.RoundTrip` with few or no packed bytes).
  It is enough that every event decodes and that no array is stored.
* **Formats.** Packed events, hex, fried lines and in-place framing round-trip or
  agree with their simple form; parsing gives every replaceable event its slot. The
  bytes of a packed event give back the members of its JSON one by one. A filter
  object and an event, both given as JSON, match through compiling, packing and
  viewing *if and only if* every member of the object asks for the event: texts of
  `ids`, `authors`, `#e` and `#p` are compared as decoded bytes, those of other tags
  as they are.

## How it is modelled

| files | part of strfry |
|---|---|
| `ByteStrings`, `Sequences`, `Texts`, `Events` | byte order, sequences, hex and decimal text, events and kinds |
| `FilterSets`, `Filters`, `Requests` | packed filter sets, filter compilation and matching, filters and events as JSON |
| `Plans`, `Cursors`, `Scans`, `Queries`, `Scheduler` | index plans, cursors, the merge, whole queries, the worker's scheduler |
| `Store`, `StoreOrder`, `Databases`, `Writer`, `Negentropy`, `DatabaseRuns`, `Cron` | what a write means, order independence, the database with its trees, the writer, tree commands, whole runs of these, expiry |
| `Lookups`, `Monitors`, `MonitorThread` | the inverted index, its maintenance and use, the monitor's message loop |
| `Subscriptions`, `Protocol`, `Closing` | one subscription's life, the protocol as a state machine, what CLOSE leaves behind |
| `WorkerThread`, `WorkerLoop`, `Examples` | one query and the whole worker thread as parts of the protocol, runs of the protocol |
| `Packed`, `Parsing`, `Pipeline`, `Commits`, `Frames`, `Fried` | packed events, JSON to packed, writer pipeline, its commit, framing, fried lines |

Assumptions that stand in for code outside the repository or for what ids are:

* LMDB and RasgueaDB are not part of this model. A table is a map from levId, a new
  levId is the largest one plus one, and an index is the sorted sequence of the
  rows that `golpe.yaml` defines. A read transaction is a fixed snapshot.
* `created_at` is below 2^40 and a filter has fewer than 2^24 index searches, the
  widths that candidates are packed into; ties are broken by larger levId.
* An id determines its event and has 32 bytes, like keys and e-tags.
* Hex and decimal conversions are those of a library, given in `Texts` as callers
  rely on them; a `0x` prefix is not accepted.
* The clock is an oracle: each time a query looks at it, it may or may not be late. The
  order in which hash maps are visited, the validator's verdict and the arrival of
  messages are arbitrary choices as well.
* In the protocol, worker and monitor are one thread each: threads of a pool serve
  disjoint connections, and share the store and the ephemeral-kind counters. The
  counters are modelled for any number of monitor threads, with each update of them
  as one step. Handling one message is one step; a query may take a slice at any time
  between messages, which includes the code's schedule.
* Targeting is acyclic where order independence is at stake: an id is a hash of the
  event, e-tags included.
* The five maps of the live index are one map with tagged keys, and maps nested by
  connection and subscription id are flattened to pairs.
* A scan looks at the front candidate and removes it once it is dealt with, where
  the code removes it first; when the query stops in between, the scan is over.

## Model

| member | source | states |
|---|---|---|
| `ByteStrings.LessIs` | src/events_write.cpp:47 | byte strings compare by the first byte that differs, and a proper prefix is smaller |
| `Events.FirstDIs` | src/events_write.cpp:23-29 | the d-tag of an event is the first one |
| `FilterSets.Build` | src/filters.h:18-40 | succeeds exactly when sizes and total fit, and then no 16-bit or 8-bit cast lost anything: the table spells out the distinct inputs in increasing order |
| `FilterSets.DoesMatch` | src/filters.h:52-79 | the first-byte-accelerated search finds exactly the members |
| `FilterSets.StrictlyIncreasingUnique` | src/filters.h:30-37 | a sorted list without repetition is determined by its members |
| `Filters.Compile` | src/filters.h:121-170 | exactly the acceptable objects compile (types, hex, sizes, numbers), and the result matches an event iff every member of the object admits it |
| `Requests.MemberAdmits` | src/filters.h:126-163 | a member of a filter object admits the event packed from a JSON object iff it asks for that object: by time or kind, by some text for the id, the key or a tag of the name, decoded on both sides for `ids`, `authors`, `#e` and `#p`; `#d` with an empty text also asks for every replaceable event |
| `Requests.TagMemberAdmits` | src/filters.h:141-153 | for tag members: some tag of the JSON has the name and its text is in the list, for `e` and `p` as decoded bytes, though the filter's constructor and the parser decide on their own which texts to decode |
| `Requests.MatchTexts` | src/events_parse.cpp:37-54 | compiled, packed, viewed and compared, a filter object and an event match iff every member asks for the event; it fails iff one of them is not acceptable |
| `Filters.CompileGroup` | src/filters.h:215-223 | an event matches the group iff one of the request's objects admits it; filters that cannot match are dropped without changing that |
| `Filters.DoesMatch` | src/filters.h:178-202 | the loops with early exit decide the declarative match |
| `Filters.GroupDoesMatch` | src/filters.h:239-245 | true iff some filter of the group matches |
| `Plans.ChoosePlan` | src/DBQuery.h:104-227 | every chosen plan covers all matches; where the full match is skipped, a row in the time range is a match |
| `Plans.SmallestTag` | src/DBQuery.h:127-136 | the tag item with the fewest values is chosen |
| `Plans.PubkeyKindPlan` | src/DBQuery.h:154-175 | the author-kind plan is complete and sound |
| `Plans.TagPlan` | src/DBQuery.h:123-153 | the tag plan is complete, and sound when it is the only restriction |
| `Cursors.PackingExact` | src/DBQuery.h:11-22 | time and cursor number survive the packing into 64 bits |
| `Cursors.Collect` | src/DBQuery.h:39-90 | a cursor hands out the rows of its key in the time range newest first, skips none and resumes where it stopped |
| `Cursors.MergeQueues` | src/DBQuery.h:271-276 | the merge is sorted and keeps every candidate of both queues |
| `Scans.InitStep` | src/DBQuery.h:238-246 | first reads keep the scan invariant: nothing due is lost, queue ordered, `outstanding` exact |
| `Scans.PopStep` | src/DBQuery.h:251-268 | so does taking the front candidate |
| `Scans.RefillStep` | src/DBQuery.h:268-277 | so does refilling a cursor, even on a changed snapshot |
| `Scans.FrontIsNewest` | src/DBQuery.h:229-254 | the front candidate is the newest event still due |
| `Scans.EmptyQueueIsDone` | src/DBQuery.h:247-249 | when the queue is empty nothing is due |
| `Queries.DBQuery.Process` | src/DBQuery.h:302-369 | filter after filter, pausing anywhere, keeps what the query has to find; it pauses only when the clock is late, and then fewer slices are left on this snapshot than before |
| `Queries.DBQuery.HandleEvent` | src/DBQuery.h:310-323 | an event joins the answer once, is sent once and only if stored, and stops the scan at the limit |
| `Queries.DBQuery.Scan` | src/DBQuery.h:229-279 | the scan loop ends and visits candidates until the filter is answered or the clock, looked at when over 2000 units of work have been done since the last look and only then, is late; a pause comes after at least one round, and brings the end nearer |
| `Queries.Look` | src/DBQuery.h:323-329 | when the clock is looked at and what follows |
| `Queries.RunQuery` | src/DBQuery.h:302-369 | for every schedule of slices over changing snapshots, and then on the last one with any clock in each slice, the query ends; the sent batches together answer the filters, each batch stored at its time; on one snapshot alone there are no more slices than its rows and the filters give |
| `Queries.SlicesAreLeft` | src/DBQuery.h:234-279 | the measure of slices left that every pause lowers is never negative |
| `Queries.SnapshotAnswer` | src/DBQuery.h:229-279 | on one snapshot what is sent equals the brute-force answers in order, each event once |
| `Queries.ChangingAnswer` | src/QueryScheduler.h:86-96 | on a changing store nothing is sent twice or beyond the start id, and every matching event that is stored throughout is sent, if fewer than `limit` matching events up to the start are ahead of it |
| `Queries.QueryForward` | src/QueryScheduler.h:73-96 | a paused query is as good as before when fewer events stay stored and more have been |
| `Queries.SentSoFar` | src/DBQuery.h:310-323 | at any pause only wanted events have been sent, each once |
| `Queries.TopOfIsAnswer` | src/DBQuery.h:229-232 | the requirements on an answer leave only the first `limit` of all matches sorted newest first |
| `Queries.AnswerExists` | src/DBQuery.h:302-369 | and on every snapshot the brute-force answers meet them |
| `Scheduler.QueryScheduler.AddSub` | src/QueryScheduler.h:20-44 | a new query with an object of its own is first in the queue and the only live one of its name; refused iff the connection has too many; all queries can go on |
| `Scheduler.QueryScheduler.RemoveSub` | src/QueryScheduler.h:56-62 | the query of that name dies and can no longer be found; each query stays once in the queue |
| `Scheduler.QueryScheduler.CloseConn` | src/QueryScheduler.h:64-71 | the same for all queries of a connection |
| `Scheduler.QueryScheduler.Process` | src/QueryScheduler.h:73-113 | one slice of the front query: dropped if dead, gone if complete with its answer given, else last in the queue and nearer to its end; the others are untouched and can go on |
| `Scheduler.TakeTurn` | src/QueryScheduler.h:73-113 | every turn, however short its slice, leaves fewer turns to come on the snapshot |
| `Scheduler.TurnsAreLeft` | src/QueryScheduler.h:73-113 | and there is at least one to come for every query in the queue |
| `Scheduler.RunAll` | src/QueryScheduler.h:73-113 | all queries in turn, with any slices on any snapshots and then on the last one, whatever the clock says: the queue gets empty, in a bounded number of turns, and every query that was live ends with its answer given |
| `Store.StatusIs` | src/events_write.cpp:99-118 | when an event is a duplicate, deleted, replaced or written, said in kinds, authors, tags, times and ids |
| `Store.WrittenIs` | src/events_write.cpp:120-145 | a written event gets the next levId, and exactly the event it competes with and the targets of its e-tags go |
| `Store.WriteKeepsInv` | src/events_write.cpp:99-147 | a write keeps ids and slots unique and leaves no stored target of a stored deletion |
| `Store.LeavesOnlyByAuthor` | src/events_write.cpp:17-78 | an event leaves the store only when its own author writes one that replaces or deletes it |
| `Store.MaxLevIdGrows` | src/events_write.cpp:120-145 | the largest levId never decreases and a new event gets the next one |
| `Store.WriteTwice` | src/events_write.cpp:99-102 | writing an event again changes nothing |
| `Store.ApplyKeepsInv` | src/events_write.cpp:82-150 | the invariant holds after any list of events |
| `StoreOrder.OrderFreeIffSettled` | src/events_write.cpp:82-150 | order does not matter iff every deletion that hits an event without a slot, or the best of a slot, is backed by one that cannot be undone, in the second case for the whole slot |
| `StoreOrder.UnsettledDiffers` | src/events_write.cpp:82-150 | otherwise two orders of the events, each submitted once, leave an event stored and not stored |
| `StoreOrder.SettledOutcome` | src/events_write.cpp:82-150 | what is stored in the end for a settled set, in any order and with any repetitions |
| `StoreOrder.OrderFreeIffStable` | src/events_write.cpp:82-150 | in particular, without deletions of deletions, order does not matter iff no slot with an untargeted event loses its best event to a deletion |
| `StoreOrder.NoDeletionsOutcome` | src/events_write.cpp:17-59 | without kind 5, any batching stores every event, but of those of one author, one replaceable kind and one first d-tag only that with the greatest time and then the lowest id |
| `StoreOrder.RegularDeletionsOutcome` | src/events_write.cpp:64-78 | the same with deletions of slotless events, minus their targets |
| `StoreOrder.DeletedDeletionMatters` | src/events_write.cpp:104-118 | an event, a deletion of it and a deletion of that deletion: two orders end differently |
| `StoreOrder.BatchesFlatten` | src/events_write.cpp:82-150 | batches act like the concatenation of their events |
| `Writer.ReplaceKeyIsSlot` | golpe.yaml:60-64 | two events have the same replace key iff they compete for the same slot |
| `Writer.DeletionKeyIsTarget` | golpe.yaml:65-66 | a deletion has the row that is looked up for an event iff it targets that event and has its author |
| `Writer.CheckReplaceable` | src/events_write.cpp:17-59 | Replaced iff the slot holds a newer event, or one of the same time whose id is not greater; otherwise exactly the slot's event is to be deleted |
| `Writer.CollectDeletionTargets` | src/events_write.cpp:64-78 | exactly the stored events of the same author that the e-tags name |
| `Writer.WriteEvent` | src/events_write.cpp:97-147 | the new table is the specified one, a new event's payload is a zero byte and its JSON text, other payloads are as they were, trees follow, and nothing is left to delete when the event is not written |
| `Writer.WriteEvents` | src/events_write.cpp:82-150 | a batch refines the specification applied to the sorted batch, with the reported statuses; each entry that was written and is still stored has its own JSON text behind it, and events that were there before keep theirs |
| `Writer.NewIsReported` | src/events_write.cpp:120-132 | what a batch has added to the store is reported as written under its levId |
| `Writer.SortBatch` | src/events_write.cpp:83-88 | sorted by time and id, the same events |
| `Writer.RemoveAll` | src/events_write.cpp:134-142 | exactly the named events go, whatever repeats, and the count is right |
| `Writer.DeleteEvents` | src/events.h:124-138 | the same as an operation on a valid database |
| `Databases.Database.MostRecentLevId` | src/events_db.cpp:21-30 | the largest levId, 0 for an empty store |
| `Databases.Database.LookupById` | src/events_db.cpp:4-13 | finds the event with that id iff there is one |
| `Databases.NegentropyFilterCache.Freshen` | src/NegentropyFilterCache.h:51-80 | afterwards the cache is the filter table, with a complete dispatch by kind |
| `Databases.NegentropyFilterCache.Update` | src/NegentropyFilterCache.h:32-47 | the trees of exactly the matching filters change, each once |
| `Databases.TryFilters` | src/NegentropyFilterCache.h:33-39 | each candidate's tree is updated iff its filter matches, none twice |
| `Databases.BuildDispatch` | src/NegentropyFilterCache.h:67-76 | every filter is found under each of its kinds, or among the kindless ones, once |
| `Databases.TouchInsert` | src/NegentropyFilterCache.h:33-39 | updating a tree on insert keeps it equal to the matching events |
| `Databases.TouchErase` | src/NegentropyFilterCache.h:33-39 | and on delete |
| `Negentropy.StaleCacheDetected` | src/NegentropyFilterCache.h:52-54 | once the counter has moved a cache is seen to be stale |
| `Negentropy.CheckFilter` | src/apps/dbutils/cmd_negentropy.cpp:50-56 | the command takes one object or an array: accepted iff all objects are acceptable, one is left that something can match, and, if only one is left, it sets no bound in time |
| `Negentropy.AddThenWrite` | src/NegentropyFilterCache.h:51-64 | once the command has accepted a filter, the table can be read back before a write iff that filter is not an array |
| `Negentropy.LoadFilters` | src/NegentropyFilterCache.h:51-64 | reading the filter table succeeds iff every stored filter is a single acceptable object |
| `Negentropy.ArrayBreaksWrites` | src/apps/dbutils/cmd_negentropy.cpp:47-68 | the array of one filter that matches everything is accepted and cannot be read back |
| `Negentropy.AddTree` | src/apps/dbutils/cmd_negentropy.cpp:47-70 | a new single filter gets a new empty tree and moves the counter; refused iff bounded in time, never matching or present |
| `Negentropy.BuildTree` | src/apps/dbutils/cmd_negentropy.cpp:73-122 | the tree gains what the filter's query finds; valid trees stay valid |
| `Negentropy.BuildIsFullIff` | src/apps/dbutils/cmd_negentropy.cpp:96-117 | a built tree holds all matching events iff they are no more than the limit |
| `DatabaseRuns.RunAll` | src/NegentropyFilterCache.h:21-80 | in every run of writes, deletions, `negentropy add` and `build`, with any number of caches: the database stays valid, every cache that seems current is, every tree once built holds exactly the times and ids of the matching stored events, and every stored event has a text that belongs to it, for whatever relation the batches' entries obey |
| `Cron.FindExpired` | src/apps/relay/RelayCron.cpp:19-49 | an event is selected iff a later one is stored, its expiration is not 0 nor in the future, and, if it is 1, the event is at least as old as the lifetime of ephemeral events |
| `Cron.SweepIsExact` | src/apps/relay/RelayCron.cpp:51-60 | a stale list deletes only the events it selected and never the newest |
| `Cron.StepKeepsInv` | src/apps/relay/RelayCron.cpp:14-61 | every batch, selection and sweep keeps the run invariant |
| `Cron.LevIdsNeverReused` | src/events_write.cpp:132-144 | over every run no levId ever names two events and the largest never decreases |
| `Cron.StepRevivesNothing` | src/events_write.cpp:120-145 | an event that is gone does not come back under its levId |
| `Lookups.MatchIsFound` | src/ActiveMonitors.h:130-153 | a matching filter is installed under one of the event's keys |
| `Lookups.KeysDistinct` | src/ActiveMonitors.h:172-221 | a filter is installed at most once under a key |
| `Monitors.EphemeralSubTracker.HasSubscribersForKind` | src/EphemeralSubTracker.h:12-15 | for an ephemeral kind, true iff some monitor thread has a filter installed under the kind or as a catch-all |
| `Monitors.PutCounted` | src/EphemeralSubTracker.h:17-33 | counting up in the shared counters follows an installation in one thread's index |
| `Monitors.DropCounted` | src/EphemeralSubTracker.h:22-38 | counting down follows a removal from one thread's index |
| `Monitors.ActiveMonitors.InstallLookups` | src/ActiveMonitors.h:172-221 | exactly the subscription's filters are added, with its watermark |
| `Monitors.ActiveMonitors.UninstallLookups` | src/ActiveMonitors.h:227-282 | every lookup succeeds, exactly its filters go, no empty set stays |
| `Monitors.ActiveMonitors.AddSub` | src/ActiveMonitors.h:54-77 | replaces one of the same name, is refused iff the connection is full or the watermark is not current, keeps index and counters exact |
| `Monitors.ActiveMonitors.RemoveSub` | src/ActiveMonitors.h:79-90 | exactly that subscription goes |
| `Monitors.ActiveMonitors.CloseConn` | src/ActiveMonitors.h:92-99 | exactly the connection's subscriptions go |
| `Monitors.ActiveMonitors.Process` | src/ActiveMonitors.h:101-158 | the recipients are the subscriptions below the event whose filters match by brute force, each once |
| `Monitors.ProcessMonitorSet` | src/ActiveMonitors.h:104-115 | afterwards no filter under the key has more to say about the event |
| `Monitors.Finish` | src/ActiveMonitors.h:130-157 | once all keys of the event are tried the recipients are the brute-force ones |
| `MonitorThread.ReqMonitor.Begin` | src/apps/relay/RelayReqMonitor.cpp:27-28 | `currEventId` is clamped to the snapshot and stays above what was processed |
| `MonitorThread.ReqMonitor.OnNewSub` | src/apps/relay/RelayReqMonitor.cpp:31-46 | sends exactly the matching events after the query's start, oldest first, and installs the snapshot's newest as watermark |
| `MonitorThread.ReqMonitor.OnDBChange` | src/apps/relay/RelayReqMonitor.cpp:51-60 | each subscription gets its matching events between watermark and snapshot in order, once, through the index |
| `MonitorThread.ServedIsUpdated` | src/apps/relay/RelayReqMonitor.cpp:51-60 | that is the step the protocol takes |
| `Subscriptions.CaughtUpOk` | src/apps/relay/RelayReqMonitor.cpp:34-42 | after the catch-up range a subscription is complete up to the snapshot |
| `Subscriptions.UpdatedOk` | src/apps/relay/RelayReqMonitor.cpp:51-60 | and stays complete through later changes, without repetition |
| `Subscriptions.SliceMaySend` | src/QueryScheduler.h:86-96 | each event that a slice of the query engine adds is one that the protocol lets the query send |
| `WorkerThread.RunSteps` | src/QueryScheduler.h:73-113 | a slice of the query engine on the worker's snapshot is a run of the protocol in which exactly what the engine sends is sent; when the engine is done, the subscription may be completed |
| `WorkerThread.FollowsFromStart` | src/apps/relay/RelayReqWorker.cpp:45-52 | the engine of a new request starts in step with the protocol |
| `WorkerThread.FollowsAlong` | src/apps/relay/RelayReqWorker.cpp:40-66 | and stays in step whatever else happens between its slices |
| `WorkerLoop.GoOn` | src/apps/relay/RelayReqWorker.cpp:40-43 | the scheduler and the protocol's worker stay in step while clients, store and monitor go on and the worker turns to a new snapshot |
| `WorkerLoop.TakeUp` | src/apps/relay/RelayReqWorker.cpp:46-53 | on a request the scheduler takes up, replaces and refuses exactly what the protocol's worker does |
| `WorkerLoop.LetGo` | src/apps/relay/RelayReqWorker.cpp:54-56 | on a CLOSE it lets go of the same subscription |
| `WorkerLoop.Leave` | src/apps/relay/RelayReqWorker.cpp:57-60 | and at the end of a connection of the same subscriptions |
| `WorkerLoop.RunnableKept` | src/apps/relay/RelayReqWorker.cpp:46-53 | the filters of every subscription on its way stay such that a query can be run for them |
| `WorkerLoop.RunTurn` | src/QueryScheduler.h:73-113 | a turn of the scheduler on the worker's snapshot is a run of the protocol: the sends of the front query, and its completion if it is done |
| `Subscriptions.ToldInOrder` | src/apps/relay/RelayReqWorker.cpp:30-37 | no event twice, stored ones before the one EOSE, live ones after it |
| `Protocol.StepKeepsInv` | src/apps/relay/RelayReqWorker.cpp:40-66 | every step of clients, worker, monitor and store keeps the invariant |
| `Protocol.ExactlyOnce` | src/apps/relay/RelayReqMonitor.cpp:22-60 | in every run a monitored subscription has received exactly once each event that is stored, matches one of its filters and has been processed; for those up to its start, if fewer than `limit` of the matches stored when its query began are ahead |
| `Protocol.AheadAtStart` | src/DBQuery.h:313-314 | what is stored after the start of a query does not count against a limit |
| `Protocol.NeverTwice` | src/apps/relay/RelayReqMonitor.cpp:22-60 | in every run any subscriber hears an event at most once, only what it asked for, stored ones up to its start and live ones after EOSE |
| `Protocol.InstalledAhead` | src/apps/relay/RelayReqMonitor.cpp:27-46 | `currEventId` is at most the watermark with which a subscription is installed |
| `Protocol.NothingSkipped` | src/apps/relay/RelayReqMonitor.cpp:51-60 | after a DBChange every matching event of the snapshot that is still stored has been sent |
| `Protocol.RunGrows` | src/apps/relay/RelayReqWorker.cpp:9-37 | messages to a subscriber are only ever added at the end |
| `Examples.RequestIsAnswered` | src/apps/relay/RelayReqWorker.cpp:30-37 | from every initial state every request has a run in which it is sent the brute-force answer and goes on to the monitor |
| `Examples.BothEventsArrive` | src/apps/relay/RelayReqMonitor.cpp:22-60 | from an empty store, there is a run in which a client with a filter gets one event as a stored one, EOSE, and a later one live |
| `Closing.ClosedIsGone` | src/apps/relay/RelayReqWorker.cpp:54-60 | once a CLOSE or disconnect has passed both queues, no thread or message has the subscription |
| `Closing.GoneIsSilent` | src/apps/relay/RelayReqMonitor.cpp:47-50 | from then on it stays gone and is sent nothing |
| `Closing.FollowedKept` | src/apps/relay/RelayReqWorker.cpp:45-61 | wherever a closed subscription is, a closing message stays behind it |
| `Pipeline.StepConserves` | src/WriterPipeline.h:57-175 | no step of producer, validator or writer loses, doubles or reorders an input |
| `Pipeline.CountersAddUp` | src/WriterPipeline.h:29-32 | in every interleaving each counter is the number of inputs with that fate, and processed is written plus rejected plus duplicates plus what is queued or in hand |
| `Pipeline.WrittenIsAccepted` | src/WriterPipeline.h:146-156 | in every run an input has been written iff some commit that did not throw accepted it |
| `Pipeline.DuplicateIsKnownOrRefused` | src/WriterPipeline.h:133-161 | it counts as a duplicate iff its event was known when it was collected, or such a commit refused it |
| `Pipeline.RejectedIsInvalid` | src/WriterPipeline.h:71-81 | and it has been rejected iff its validation failed |
| `Commits.CommitBatch` | src/WriterPipeline.h:146-163 | on a batch that decodes, exactly the inputs whose entries writeEvents reports as written are accepted, the two counters grow by the numbers of written and other results, and the store changes as writeEvents says |
| `Commits.Reordered` | src/events_write.cpp:83-88 | the results of a sorted batch belong to its entries one to one |
| `Pipeline.ConservedCollect` | src/WriterPipeline.h:117-143 | pushing back an over-full batch changes nothing in order or number |
| `Pipeline.CleanShutdown` | src/WriterPipeline.h:168-172 | if nothing is written after a flush, every event written has 88 bytes or more and no commit throws, a writer that stops by itself has counted every input once and nothing is live |
| `Pipeline.CleanIffEventsDecode` | src/WriterPipeline.h:117-143 | a run that has ended, with nothing written after a flush, ended cleanly iff every event written has 88 bytes or more no commit read the tags of one whose tags do not decode, and the stored filters could be read back whenever there was something to write |
| `Pipeline.DecodingIsEnough` | src/PackedEvent.h:21-62 | that is so if every event written decodes and every stored filter is a single object |
| `Pipeline.EmptyEventStopsWriter` | src/WriterPipeline.h:128-131 | an event after an empty one is never written |
| `Pipeline.ShortEventAborts` | src/WriterPipeline.h:126-136 | an event of 1 to 87 bytes ends the writer by an exception, with nothing live and the event not counted |
| `Pipeline.BrokenTagsAbort` | src/WriterPipeline.h:146-151 | so does an event with a whole header whose tags do not decode, when it is inserted |
| `Pipeline.StoredArrayAborts` | src/NegentropyFilterCache.h:51-64 | so does a proper event while a filter array is stored, and it is not written |
| `Packed.TagBuilder.Add` | src/PackedEvent.h:65-75 | appends one encoded tag; refused iff the value is over 255 bytes |
| `Packed.Build` | src/PackedEvent.h:77-93 | the packed form of the event; refused iff id or key has the wrong size |
| `Packed.ForeachTag` | src/PackedEvent.h:52-62 | a callback that always goes on gets exactly the tags that the bytes encode, or, if they encode none, those before the break and the clipped one, and then the walk fails; otherwise the first call after which it does not go on is the last |
| `Packed.ViewHeader` | src/PackedEvent.h:21-50 | fails iff there are fewer than 88 bytes; the accessors give the event whose packed form those bytes are, whatever follows |
| `Packed.View` | src/PackedEvent.h:21-62 | with the tags: reads exactly the event whose packed form the bytes are, and fails iff there is none |
| `Packed.PackRoundTrip` | src/PackedEvent.h:21-93 | viewing a packed event gives the event back |
| `Packed.NumberRoundTrip` | src/PackedEvent.h:40-50 | numbers read back |
| `Packed.LittleEndian` | src/PackedEvent.h:40-50 | lowest byte first |
| `Parsing.ToPackedEvent` | src/events_parse.cpp:7-68 | succeeds iff the object has the members of an event with their types and is acceptable; the bytes are then the decoded id, the decoded key, the time, the kind, the expiration (1 if ephemeral, else that of the first expiration tag, else 0) and, between the virtual d-tags, the tags of the JSON that are indexed, in order |
| `Parsing.TagsTaken` | src/events_parse.cpp:30-54 | the packed tags are exactly those of one letter, in order: decoded for `e` and `p`, else as they are if not over 255 bytes |
| `Parsing.FirstExpirationIs` | src/events_parse.cpp:42-46 | the expiration is that of the first tag of that name |
| `Parsing.SlotIsKnown` | src/events_parse.cpp:24-59 | every replaceable event has a first d-tag: empty, or the first indexed one if parameterized |
| `Parsing.ParsedIsWritable` | src/events_parse.cpp:37-63 | ids and e-tags have 32 bytes; expiration is 1 iff ephemeral |
| `Frames.SendEventToBatch` | src/apps/relay/RelayWebsocket.cpp:302-316 | each recipient gets the bytes it would have got alone, in any order |
| `Frames.MessageIs` | src/apps/relay/RelayWebsocket.cpp:302-316 | the message is `["EVENT","`, the subscription id, `",`, the event's JSON and `]` |
| `Frames.FrameOne` | src/apps/relay/RelayWebsocket.cpp:309-316 | writing a prefix in place gives the message and leaves the shared part alone |
| `Fried.ExportFried` | src/apps/dbutils/cmd_export.cpp:55-66 | the line is the JSON text without its brace, a `fried` member with the packed bytes in hex, and the brace |
| `Fried.ParseFried` | src/apps/dbutils/cmd_import.cpp:20-35 | succeeds iff the line has the form of an export, and finds its two parts |
| `Fried.RoundTrip` | src/apps/dbutils/cmd_import.cpp:20-35 | import of an exported line gives the packed bytes back, and the JSON iff it ends in a brace |
| `Fried.StoredRoundTrip` | src/apps/dbutils/cmd_export.cpp:55-66 | for a JSON object and a packed event of at least 88 bytes both come back |
| `Texts.HexReads` | src/events_parse.cpp:12-13 | exactly the strings of an even number of hex digits, in either case, can be decoded |
| `Texts.HexRoundTrip` | src/apps/dbutils/cmd_export.cpp:63 | hex reads back, two digits a byte, the letters in lower case |

## Left out

- Negentropy.AddTree: takes a single filter that has passed the check; filters are compared in compiled form rather than as canonical text, and a stored array, after which every write fails, is not part of the database.
- Negentropy.CheckFilter: the members of an array are JSON objects; other JSON values in it are refused as well.
- Pipeline.CleanShutdown: counters are unbounded numbers and an input written after a flush is only covered by Pipeline.CountersAddUp.
- Packed.ForeachTag: with one byte left the code looks at the byte after the buffer before it throws; the model only throws.
- Fried.ParseFried: a `0x` before the hex digits, which the hex library may skip, is not accepted.
- Signatures, hashes and time checks of new events, and the JSON text itself.
- COUNT requests, which send no events and are never handed to the monitor.
- Logging, metrics and debug-only assertions.
- Payload compression and dictionaries.
- Negentropy reconciliation, its B-tree and the relay's negentropy thread.
- Plugins, the router, stream and sync commands, HTTP and websocket input and output, configuration reload.
- `strfry delete`, which may delete the newest event and so lets its levId be used again.
