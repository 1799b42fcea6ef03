# Verified models of the sendflow platform core

This project models the concurrent and stateful core of a Go email platform and proves what it is relied on for:
the batching pipeline that runs bulk jobs, the Kafka event consumers, the Redis cache with its load lock, the
PostgreSQL leader election, the audience import and export jobs, the webhook poller, the rate limiter, and the
printers for server-sent events and MIME messages.

`dafny verify dfyconfig.toml` checks everything. Nothing of the Go program is executed.

## How the models are built

- **Protocols** (`Pipeline`, `Executor`, `EventConsumer`, `CacheAside`, `LeaderElection`) are transition systems: a
  program counter per goroutine, client or session, one action per atomic step, and a run is any sequence of enabled
  actions. Scheduling, failures, crashes, time and the caller's cancellation are actions like any other, so a theorem
  about a reachable state holds for every interleaving.
- **Code that updates state in place** is a class or a method with loops, proved against a function of its inputs or
  old state (`Consumer`, `AdvisoryLock`, `RedisService`, `ImportJob`, `CsvReader`, `Stream`, `WriteJson`, `WriteCsv`,
  `MergeTags`, `PlainLoop`, `BuildShards`, `BuildMimeMessage`). The theorems are about those functions.
- **Printers** are proved against decoders written from the standards: section 9.2.6 of the WHATWG HTML standard for
  event streams; section 5.1.1 of RFC 2046 and sections 5, 6.1 and 6.8 of RFC 2045 for MIME.

| files | what they model |
|---|---|
| `BatchOptions`, `Pipeline`, `PipelineInvariant`, `PipelineFlow`, `PipelineProvenance`, `PipelineTheorems`, `PipelineWitness` | options, one pipeline run, its invariants, where its errors come from, what follows from them, and runs that show the limits |
| `Executor` | shard fan-out with shared cancel and first-error collection |
| `WebhookDelivery`, `AudienceImport`, `ImportFlow` | clients of the pipeline |
| `EventConsumer`, `CacheAside`, `CacheOutcomes`, `LeaderElection`, `RateLimit` | protocols over shared stores |
| `AudienceExport`, `ServerSentEvents`, `Base64`, `MimeEntity`, `MimeMessage` | output streams and their readers |
| `Collections`, `Decimals`, `GoStrings` | shared definitions |

## Findings

Properties one would expect that are false of the code, with the exact condition under which they hold:

- The published counters are not ordered while a run is under way, because each is updated after a channel send.
  `ItemsProcessed <= ItemsRead` holds at every moment of every run if and only if the source is empty or its first
  item is dropped (`ProcessedWithinReadIff`); `ItemsWritten <= ItemsProcessed` if and only if the source keeps less
  than one batch (`WrittenWithinProcessedIff`). Both hold once `Run` has returned (`StatsOrdered`).
- Deadlock freedom rests on one validation line: for given limits no run deadlocks if and only if `MaxInflight >=
  WriteBatchSize` (`DeadlockFreeIffEnoughTokens`). Without it, a given source is safe if and only if it is empty or
  keeps, before its last item, fewer items than there are tokens (`NeverStuckIff`).
- A consumer loses no event in any run if and only if it has a database pool or no message has an event id
  (`LosesNothingIff`). With a pool, a partition can always be worked off if and only if every remaining event id is
  missing or a UUID: any other id fails the marker query on every delivery and blocks its partition for ever
  (`DrainsIffPassable`, `PoisonMessage`).
- Every lost database session can add a leader: with L sessions lost there are at most 1 + L instances inside the
  inner poll (`Election`), and L + 1 are reached for every L and every larger number of instances
  (`LeadersAttained`). Without loss there is at most one.
- The rate limiter allows up to `2 * limit - 1` requests in a window, and that is attained; the limit itself is kept
  in every window if and only if it is 1 (`WindowBound`, `BoundAttained`, `WindowKeepsLimitIff`).
- A second import of the same rows may still change tags (`SecondImportChangesTags`): a contact created by a single
  row keeps that row's tags as written, and the next merge removes empty and repeated ones. It changes nothing else,
  and changes a contact if and only if the contact is new, has one row and that row's tags are not clean
  (`SecondImport`); the third import changes nothing.
- An event or a message is read back as written if and only if it avoids the characters or lines that its framing
  reserves (`ServerSentEvents.RoundTripIff`, `MimeMessage.RoundTripIff`); neither writer checks this.

## Model

| member | source | states |
|---|---|---|
| `BatchOptions.AcceptedMeansValid` | internal/platform/batching/pipeline.go:309-329 | options are accepted exactly when the shard id is in range and the limits are those under which progress is proved |
| `BatchOptions.RefusalReason` | internal/platform/batching/pipeline.go:309-329 | the error of a refusal names a check that fails, with every earlier one passed |
| `BatchOptions.Defaults` | internal/platform/batching/pipeline.go:290-307 | zero stands for 1 shard, 5000 buffered items, batches of 500, 10000 in flight and at most 8 processors; any other value for itself |
| `BatchOptions.DefaultsAccepted` | internal/platform/batching/pipeline.go:75-96 | options left at their defaults are accepted on any machine |
| `BatchOptions.BuildShards` | internal/platform/batching/executor.go:61-84 | the construction loop builds all shards, numbered in order with defaults filled in, or none; one refusal means all are refused |
| `PipelineTheorems.RunInv` | internal/platform/batching/pipeline.go:98-288 | the full invariant holds in every reachable state, and every step uses up part of a budget fixed by the source and the processors |
| `PipelineTheorems.TokenConservation` | internal/platform/batching/pipeline.go:187-288 | in every reachable state the tokens in the channel are exactly the items in flight and at most MaxInflight; no release and no error push ever takes its default branch |
| `PipelineTheorems.Progress` | internal/platform/batching/pipeline.go:98-288 | while Run has not returned, some goroutine can step in every state satisfying the invariant, if MaxInflight is at least WriteBatchSize or the writer leaves the reader a token |
| `PipelineTheorems.RunTerminates` | internal/platform/batching/pipeline.go:98-288 | every run has at most 14 steps per item plus 4 per processor plus 15, and a run is stuck exactly when Run has returned |
| `PipelineTheorems.NothingDuplicated` | internal/platform/batching/pipeline.go:187-278 | at every moment of every run, failing and cancelled ones included, processed items are a sub-multiset of the source and written items of its filter-map |
| `PipelineTheorems.NilReturnRefinesFilterMap` | internal/platform/batching/pipeline.go:98-278 | a nil return means each item was processed once, the written items are a permutation of the sequential filter-map, and the published counters agree |
| `PipelineTheorems.SingleProcessorOrder` | internal/platform/batching/pipeline.go:213-278 | with one processor the written items are always a prefix of the filter-map, in full batches with at most one short one last, and all of it on a nil return |
| `PipelineTheorems.ErrorProvenance` | internal/platform/batching/pipeline.go:105-120 | the error Run returns is the context's own only if the caller cancelled; otherwise a Read, Process or Write call of the run returned it, with that stage and text, and before any cancellation while the caller's context is live; an error means the context is cancelled, a nil return that nothing failed |
| `PipelineProvenance.RaisedInRun` | internal/platform/batching/pipeline.go:187-278 | every callback error anywhere in a reachable state was returned, with that stage, text and timing, by an action of the run |
| `PipelineProvenance.ErrorsCancel` | internal/platform/batching/pipeline.go:110-120 | once an error has been pushed, the context is cancelled or a goroutine is about to cancel it |
| `PipelineTheorems.UndisturbedRun` | internal/platform/batching/pipeline.go:164-176 | if no callback fails and the caller does not cancel, nothing is cancelled and Run returns nil |
| `PipelineTheorems.StatsOrdered` | internal/platform/batching/pipeline.go:179-185 | once Run has returned the published counters are ordered; before that, each is ahead of the next by at most the sends not yet counted |
| `PipelineWitness.ProcessedRunsAhead` | internal/platform/batching/pipeline.go:203-205 | for every source whose first item is kept, a run in which ItemsProcessed exceeds ItemsRead |
| `PipelineWitness.ProcessedWithinReadIff` | internal/platform/batching/pipeline.go:203-205 | ItemsProcessed <= ItemsRead at every moment of every run if and only if the source is empty or its first item is dropped |
| `PipelineWitness.WrittenRunsAhead` | internal/platform/batching/pipeline.go:233-235 | for every source that keeps a full batch, a run in which ItemsWritten exceeds ItemsProcessed |
| `PipelineWitness.WrittenWithinProcessedIff` | internal/platform/batching/pipeline.go:233-278 | ItemsWritten <= ItemsProcessed at every moment of every run if and only if the source keeps less than one batch |
| `PipelineWitness.UnderprovisionedDeadlocks` | internal/platform/batching/pipeline.go:325-327 | with fewer tokens than a batch and that many kept items before the last, a run in which every goroutine is stuck |
| `PipelineWitness.DeadlockFreeIffEnoughTokens` | internal/platform/batching/pipeline.go:325-327 | no run of any source deadlocks if and only if MaxInflight is at least WriteBatchSize |
| `PipelineWitness.NeverStuckIff` | internal/platform/batching/pipeline.go:325-327 | the same for one source: no run of it deadlocks if and only if the validation holds, the source is empty, or it keeps fewer items before its last than there are tokens |
| `Executor.PoolRunInv` | internal/platform/batching/executor.go:86-115 | the pool invariant over all shards, wrappers and the collector holds in every reachable state, and steps use up a fixed budget |
| `Executor.FanOutProvenance` | internal/platform/batching/executor.go:86-108 | the error returned is the result of one shard's Run and, unless the caller cancelled, exactly the error one of that shard's callbacks returned before its pipeline was cancelled, in a Run that ended while the shared context was still live |
| `Executor.FanOutCancels` | internal/platform/batching/executor.go:86-108 | the shared context is cancelled once a failed shard's goroutine is through and once an error is collected, only after a shard failed or the caller cancelled, and every running shard can see it |
| `Executor.FanOutSuccess` | internal/platform/batching/executor.go:86-115 | without an error every shard wrote its filter-map exactly once, and all three of its returned counters say so |
| `Executor.FanOutOrder` | internal/platform/batching/executor.go:53-115 | a shard with one processor writes in source order at every moment |
| `Executor.FanOutTerminates` | internal/platform/batching/executor.go:86-115 | the shared error channel never blocks a wrapper, every pool run is bounded, and the pool can move until it has returned |
| `WebhookDelivery.PlainLoop` | internal/apps/worker/due_webhook_consumer.go:173-197 | the loop records, in order, the outcome of each delivery that did not fail |
| `WebhookDelivery.RecordedOutcome` | internal/apps/worker/due_webhook_delivery_processor.go:117-135 | one record: nothing without a recorder or workspace, else the operation, status, workspace, consumer and target in the words of the log |
| `WebhookDelivery.LoopRecords` | internal/apps/worker/due_webhook_consumer.go:173-197 | the records are those of the deliveries with a workspace whose processing did not fail, in order |
| `WebhookDelivery.PollLimits` | internal/apps/worker/due_webhook_delivery_processor.go:67-81 | one processor, and every capacity the configured batch size or the number of claimed deliveries |
| `WebhookDelivery.RecordBatch` | internal/apps/worker/due_webhook_delivery_processor.go:101-135 | the writer records a batch of outcomes in order |
| `WebhookDelivery.PollOptionsAccepted` | internal/apps/worker/due_webhook_delivery_processor.go:59-115 | NewPipeline accepts the poller's options whatever batch size is configured |
| `WebhookDelivery.PollRefinesLoop` | internal/apps/worker/due_webhook_delivery_processor.go:59-135 | at every moment the poller's records are, up to the consumer label, a prefix of the loop's; on a nil return each delivery was processed once, in order, and the records are all of them; only the caller can make it return anything else |
| `EventConsumer.RunInv` | internal/apps/worker/consumers.go:74-143 | position, store and execution-count invariants in every run with store errors and crashes |
| `EventConsumer.NoLostEvent` | internal/apps/worker/consumers.go:74-143 | every offset below the committed one has no event id, or a marker for an event that was handled successfully or dead-lettered |
| `EventConsumer.LosesNothingIff` | internal/apps/worker/consumers.go:81-142 | no run commits a message whose event was neither handled nor dead-lettered, if and only if there is a pool or no message has an event id |
| `EventConsumer.BoundedReexecution` | internal/apps/worker/consumers.go:81-142 | an event is handled successfully at most once more than the sessions that ended between its handling and its marker, never while marked, and handlings start in offset order |
| `EventConsumer.PoisonMessage` | internal/apps/worker/operations.go:33-40 | no run commits beyond an event id that the marker query cannot cast |
| `EventConsumer.DrainsIffPassable` | internal/apps/worker/operations.go:33-52 | from any reachable state the partition can be worked off if and only if every remaining id is missing or castable |
| `EventConsumer.Consumer.WasProcessed` | internal/apps/worker/operations.go:33-40 | whether the uuid the id casts to is marked, however the id is spelled, or an error when the query fails or cannot cast it |
| `EventConsumer.Consumer.MarkProcessed` | internal/apps/worker/operations.go:42-52 | exactly when the marker for the uuid is added, and when success is reported |
| `EventConsumer.Consumer.SaveDeadLetter` | internal/apps/worker/operations.go:121-141 | exactly when the record is added, and when success is reported |
| `EventConsumer.Consumer.Handle` | internal/apps/worker/consumers.go:74-143 | the handler's early returns and store updates are those of a run of the protocol; it returns nil exactly when nothing was left undone, and exactly these markers and dead letters are added |
| `EventConsumer.Consumer.CommitMessage` | internal/platform/kafka/segmentio.go:74-76 | the commit is the protocol's commit step, with or without effect on error |
| `EventConsumer.Consumer.Consume` | internal/platform/kafka/segmentio.go:61-78 | the committed offset, markers and dead letters after a session, message by message; they are what some run of the protocol reaches, and no event is lost |
| `EventConsumer.SessionLength` | internal/platform/kafka/segmentio.go:61-78 | a session commits the longest run of messages that pass, with the markers of that moment, and commit, and one more if the commit that ends it fails after taking effect |
| `EventConsumer.WellSession` | internal/platform/kafka/segmentio.go:61-78 | when everything goes well it commits one message per answer, up to the end of the partition |
| `EventConsumer.StepRecords` | internal/apps/worker/consumers.go:74-143 | the histories of handlings record exactly the steps that begin them, end them or leave them unmarked |
| `CacheAside.RunInv` | internal/platform/redis/cache.go:94-162 | freshness and lock-ownership invariants for any number of clients in every interleaving |
| `CacheAside.BoundedStaleness` | internal/platform/redis/cache.go:94-162 | a returned value was the source's, read since the flight that obtained it began or less than ttl + D before, where D bounds load-to-set time; that flight, own or shared, ended no earlier than the call began |
| `CacheAside.CachedIsRecent` | internal/platform/redis/cache.go:213-231 | a visible cache entry holds a value the source had less than ttl + D ago; failed loads leave nothing |
| `CacheAside.LeaseExclusive` | internal/platform/redis/redis.go:83-96 | at most one client holds an unexpired lease, and it is the one stored under the lock key |
| `CacheAside.ReleaseKeepsSuccessor` | internal/platform/redis/redis.go:98-110 | no step of a client changes a running lease that is not its own, so an expired holder's deferred release never deletes a successor's; the holder's release does delete its own |
| `CacheOutcomes.ResultsExplained` | internal/platform/redis/cache.go:94-162 | a call fails exactly when a cache read or a load failed, its own or that of the flight it shared; one that loaded returns what the source held at that moment, stored or not, whatever interleaved; one that hit returns the entry it read |
| `CacheOutcomes.StartsAreReal` | internal/platform/redis/cache.go:94-162 | the start times staleness is measured from are those of the call, and of the flight that obtained the result |
| `CacheOutcomes.LoadsOnlyAfter` | internal/platform/redis/cache.go:94-162 | a load happens only after two misses and then under the lease after a third, or after a failed lock call, or after the lock was taken and every retry missed |
| `CacheOutcomes.CacheHolds` | internal/platform/redis/cache.go:213-231 | the cache holds what the last successful SET put there, for its ttl, unless invalidated since |
| `CacheOutcomes.StoredIsServed` | internal/platform/redis/cache.go:94-112 | until the ttl is over, with no invalidation or later SET, every read hits and returns what was stored |
| `CacheOutcomes.PastIsPast` | internal/platform/redis/cache.go:94-162 | what staleness counts as a past value of the source was its value at that time |
| `CacheOutcomes.LagIsReal` | internal/platform/redis/cache.go:213-231 | the load-to-set time that bounds staleness is one some SET really had |
| `LeaderElection.CallsStayBalanced` | internal/platform/postgres/advisory_lock.go:47-96 | every path matches pool acquires with releases; leadership is granted exactly when the lock is free; unlock always gives up the connection |
| `LeaderElection.AdvisoryLock.TryLock` | internal/platform/postgres/advisory_lock.go:47-74 | client, server and outcome after an attempt, on every path |
| `LeaderElection.AdvisoryLock.Unlock` | internal/platform/postgres/advisory_lock.go:76-96 | client, server and outcome after an unlock; a failed one still frees the lock and the connection |
| `LeaderElection.AdvisoryLock.Poll` | internal/apps/worker/elected_scheduler.go:43-57 | a lock already held refuses the cycle and nothing changes; otherwise the inner poll runs exactly when the lock was free, and client and server are left as found |
| `LeaderElection.Election` | internal/apps/worker/elected_scheduler.go:43-57 | for any number of instances in every run, leaders number at most one more than lost sessions; without loss at most one is inside and a connection is held exactly when its session holds the lock |
| `LeaderElection.LeadersAttained` | internal/apps/worker/elected_scheduler.go:43-57 | for every number of losses and every larger number of instances, a run with that many losses and one more instance inside the inner poll |
| `RateLimit.RedisService.Eval` | internal/platform/ratelimit/ratelimit.go:9-15 | the script's effect: the count goes up, and the expiry is set only by the call that creates the key; an error may come with or without the effect |
| `RateLimit.RedisService.Allow` | internal/platform/ratelimit/ratelimit.go:33-51 | the counter after the call and the decision, or none on error; a non-positive limit allows without counting |
| `RateLimit.WindowSeconds` | internal/platform/ratelimit/ratelimit.go:38-41 | a window of s seconds and a fraction gives a lifetime of s seconds, and never less than one |
| `RateLimit.OneDecisionEach` | internal/platform/ratelimit/ratelimit.go:33-51 | one decision per request, with its time |
| `RateLimit.LifetimeAllows` | internal/platform/ratelimit/ratelimit.go:9-15 | each counter lifetime, whatever ttl each request asks for, allows exactly the smaller of its requests and the limit, less those whose reply was lost |
| `RateLimit.WindowBound` | internal/platform/ratelimit/ratelimit.go:9-15 | any half-open interval no longer than the ttls asked for allows at most 2 * limit - 1 requests, for every timing and every loss of replies |
| `RateLimit.BoundAttained` | internal/platform/ratelimit/ratelimit.go:9-15 | requests that reach that bound, for every limit and every ttl above one tick |
| `RateLimit.WindowKeepsLimitIff` | internal/platform/ratelimit/ratelimit.go:33-51 | the limit itself is kept in every window if and only if it is 1 |
| `AudienceImport.MergeTags` | internal/apps/worker/audience_import_processor.go:414-432 | the two-pass loop over a seen-set computes the merged tag list |
| `AudienceImport.MergedTagsFacts` | internal/apps/worker/audience_import_processor.go:414-432 | merged tags are trimmed, non-empty and distinct, hold exactly the tags of both lists, extend a clean first list, and are unchanged by tags already held |
| `GoStrings.TrimCuts` | internal/apps/worker/audience_import_processor.go:342-352 | trimming takes white space and nothing else off both ends, and leaves none there |
| `GoStrings.SplitCommaCuts` | internal/apps/worker/audience_import_processor.go:356-362 | splitting cuts at every comma and only there |
| `AudienceImport.CountsBalance` | internal/apps/worker/audience_import_processor.go:329-339 | every row lands in exactly one of created, updated and failed, whatever fails |
| `AudienceImport.ImportJob.ProcessContactRow` | internal/apps/worker/audience_import_processor.go:341-412 | contacts and counts after one row, on every path |
| `AudienceImport.ImportJob.ProcessImportBatch` | internal/apps/worker/audience_import_processor.go:329-339 | a batch has the effect of its rows in order |
| `AudienceImport.ImportOne` | internal/apps/worker/audience_import_processor.go:341-412 | emails do not interfere: a known contact changes as its own rows say, in order |
| `AudienceImport.ImportKeys` | internal/apps/worker/audience_import_processor.go:341-412 | a contact is there after an import exactly when it was before or a parsed row names it |
| `AudienceImport.ImportedEmails` | internal/apps/worker/audience_import_processor.go:341-412 | importing adds one contact for each lower-cased, trimmed email among the rows, and no other |
| `AudienceImport.CreatedFromRow` | internal/apps/worker/audience_import_processor.go:341-412 | a new contact has exactly the row's email, names, split and trimmed tags, and non-blank columns other than those four |
| `AudienceImport.UpdatedFromRow` | internal/apps/worker/audience_import_processor.go:376-386 | a known contact takes the row's names, merges its tags, lets its attributes win and keeps everything else |
| `AudienceImport.ImportTags` | internal/apps/worker/audience_import_processor.go:341-432 | after an import a contact's tags are clean if and only if it was there before, has several rows, or its one row is clean |
| `AudienceImport.SecondImport` | internal/apps/worker/audience_import_processor.go:341-442 | a second import adds no contact, and leaves a contact as it was apart from its update time if and only if it has no row, was there before the first, has several rows, or its one row has clean tags |
| `AudienceImport.SecondImportChangesTags` | internal/apps/worker/audience_import_processor.go:341-442 | one row with a repeated tag, into an empty workspace: the second import changes the contact |
| `AudienceImport.ThirdImport` | internal/apps/worker/audience_import_processor.go:341-442 | from the second import on, importing again changes only update times |
| `AudienceImport.CleanImport` | internal/apps/worker/audience_import_processor.go:329-412 | with nothing failing, the job's own fold over rows and counts is the abstract import |
| `AudienceImport.ReimportCreatesNothing` | internal/apps/worker/audience_import_processor.go:341-412 | importing the same rows again reports none created, one update per row with an email, and the rest failed |
| `ImportFlow.CsvReader.Read` | internal/apps/worker/audience_import_processor.go:213-238 | the read loop delivers the parsable records in order, counts the others, and reports the end only at the end |
| `ImportFlow.CsvReader.BuildRow` | internal/apps/worker/audience_import_processor.go:229-234 | a row maps each header to the last value under it, ignoring surplus values |
| `ImportFlow.RowIsLastField` | internal/apps/worker/audience_import_processor.go:229-234 | the value under each header is the last field in a column of that name, and there is nothing else in the row |
| `ImportFlow.ImportLimits` | internal/apps/worker/audience_import_processor.go:320-325 | one processor, batches of 100, 1000 buffered and in flight |
| `ImportFlow.CsvCounts` | internal/apps/worker/audience_import_processor.go:202-241 | when the pipeline succeeds, all parsed rows were written in order and created + updated + failed equals processed plus unparsable, the number of records |
| `ImportFlow.JsonCounts` | internal/apps/worker/audience_import_processor.go:243-300 | when the pipeline succeeds, created + updated + failed equals processed, the number of rows |
| `AudienceExport.ArrayRoundTrip` | internal/apps/worker/audience_export_processor.go:390-467 | a closed stream parses to exactly its rows, an unclosed one does not parse |
| `AudienceExport.UnclosedMalformed` | internal/apps/worker/audience_export_processor.go:390-467 | output that does not end with the closing bracket never parses, torn writes included |
| `AudienceExport.WriteJson` | internal/apps/worker/audience_export_processor.go:390-467 | success gives one well-formed array of exactly the selected contacts in page order; after a failed listing, write, encoding or report the output does not parse, or is that same array; progress never decreases and ends at the count |
| `AudienceExport.WriteCsv` | internal/apps/worker/audience_export_processor.go:316-388 | the header, then one record for each of the same contacts in the same order with the same count; after a failed listing, write, flush or report, the records of the first rowCount of them; progress as above |
| `AudienceExport.SelectedContacts` | internal/apps/worker/audience_export_processor.go:341-344 | a contact is exported exactly when it was listed and, if there are rules, matches them |
| `AudienceExport.ColumnsByName` | internal/apps/worker/audience_export_processor.go:346-367 | the cell each field name selects |
| `AudienceExport.RecordCells` | internal/apps/worker/audience_export_processor.go:324-332 | one cell per selected field, in order; the six default fields when none are named |
| `AudienceExport.ObjectCells` | internal/apps/worker/audience_export_processor.go:415-440 | which fields an object has, tags as a list and the rest as in the CSV |
| `ServerSentEvents.Stream.WriteEvent` | internal/platform/sse/sse.go:78-97 | appends exactly the event's frame |
| `ServerSentEvents.Stream.WriteComment` | internal/platform/sse/sse.go:99-101 | appends exactly the comment's frame |
| `ServerSentEvents.StreamRoundTrip` | internal/platform/sse/sse.go:78-130 | for any interleaving of events and heartbeats a client receives the written events, in order, with the same data |
| `ServerSentEvents.RetryRoundTrip` | internal/platform/sse/sse.go:86-89 | a client is left with the whole milliseconds of the last positive retry duration written |
| `ServerSentEvents.TruncatedStream` | internal/platform/sse/sse.go:103-130 | a stream cut off anywhere yields a prefix of its events, never part of one |
| `ServerSentEvents.DecodedIsClean` | internal/platform/sse/sse.go:78-97 | whatever bytes arrive, a client dispatches only events free of the reserved characters |
| `ServerSentEvents.RoundTripIff` | internal/platform/sse/sse.go:78-97 | an event survives its frame if and only if its data has no CR, its name no CR or LF, its id no CR, LF or NUL |
| `Base64.RoundTrip` | internal/platform/email/smtp_sender.go:152-152 | decoding an encoding returns the bytes, for every byte sequence |
| `Base64.WrappedRoundTrip` | internal/platform/email/smtp_sender.go:152-159 | the same through wrapping into lines |
| `MimeEntity.RenderedReads` | internal/platform/email/smtp_sender.go:103-163 | any nesting of text, base64 and multipart entities whose parts are free of their delimiters is read back exactly, epilogue or not |
| `MimeEntity.DecodedIsClear` | internal/platform/email/smtp_sender.go:103-163 | whatever lines arrive, decoded field values hold no line break or leading space, bodies are what their fields announce, and no text holds a delimiter of a multipart entity around it |
| `MimeMessage.PutWrapped` | internal/platform/email/smtp_sender.go:153-159 | the 76-column loop writes exactly the wrapped lines |
| `MimeMessage.PutAttachment` | internal/platform/email/smtp_sender.go:132-160 | the fields with their defaults, the blank line and the wrapped data of one attachment |
| `MimeMessage.BuildMimeMessage` | internal/platform/email/smtp_sender.go:100-191 | the message built on every path is the rendering of the entity that the rows below spell out |
| `MimeMessage.ReadsSingleText` | internal/platform/email/smtp_sender.go:182-190 | a message with only HTML is read as text/html with that HTML, one without HTML as text/plain with that text, whatever they hold |
| `MimeMessage.ReadsAlternatives` | internal/platform/email/smtp_sender.go:166-180 | with both and no attachment, a reader gets text/plain with the text, then text/html with the HTML |
| `MimeMessage.ReadsMixed` | internal/platform/email/smtp_sender.go:103-163 | with attachments, a reader gets the texts likewise and then, for every attachment in order, its type or application/octet-stream, its disposition or attachment, its quoted name, its id and its bytes |
| `MimeMessage.WrappedUndelimited` | internal/platform/email/smtp_sender.go:152-159 | base64 lines have 76 characters but for a last one of 1 to 76, and can never be taken for a boundary |
| `MimeMessage.InnerIsNotOuter` | internal/platform/email/smtp_sender.go:104-124 | a delimiter of the inner alternative is never one of the outer mixed part, whatever the clock readings |
| `MimeMessage.RoundTripIff` | internal/platform/email/smtp_sender.go:100-191 | for every message, a reader gets back exactly the structure, field values, text, HTML and attachment bytes if and only if no line of the text or HTML begins with a delimiter written around it and no attachment field text holds a line break, begins with a space or announces a multipart type |

## Left out

- The goroutines of the pipeline, the executor's wrappers and the cache clients are modelled as steps on values, since
  what matters about them is their interleaving; the reuse of the writer's buffer slice is therefore not visible.
- Clocks, schedulers, random tokens and callbacks: parameters or actions. Tokens of the cache's lock are assumed fresh.
- A source that never ends: `Read` hands out a finite sequence, and a CSV stream is assumed to reach its end.
- Several live consumers on one partition, and rebalancing between them.
- The notification consumer's variant that marks unknown event types without handling them.
- Contents of dead-letter records, log and metric calls.
- CacheAside.BoundedStaleness: sharing a flight's result is allowed between any two clients, a superset of what the
  in-process singleflight group allows; `DeletePrefix` and multi-key deletes are not modelled.
- LeaderElection.Election: a failed lock or unlock statement is taken to end its session; the hash that turns the
  lock's name into its id is not modelled.
- RateLimit.RedisService.Allow: the counter is one key, and a reply that is not an integer is not modelled.
- AudienceImport.SecondImport: assumes no row's lookup or write fails and dedupe by email, as the claim does; a
  transaction that fails to commit fails the pipeline, and the counts are then not reported as a success.
- AudienceImport.ImportKeys: contacts of a workspace are a map from the normalized email, which the table's unique index
  enforces; a create that would break it is a failed row.
- ImportFlow.JsonCounts: the tokenisation of the JSON array is not modelled; rows are what the decoder delivers.
- AudienceExport.WriteCsv: records are those the CSV writer accepted; how many of them its buffer had passed on when a
  write or flush failed is not modelled.
- AudienceExport.WriteJson: output is a sequence of JSON tokens, and each object is encoded by a function of the row;
  segment rules are one predicate; ZIP packaging and uploads are not modelled.
- ServerSentEvents.StreamRoundTrip: text is a sequence of characters; UTF-8 decoding of invalid bytes is not modelled.
- MimeMessage.RoundTripIff: starts at the Content-Type field. Address, subject, date and custom header text come before
  it and are not modelled; the file name is given as the %q verb quotes it.
- HTTP handlers, error mapping, the domain services behind the handlers, and the database, broker and object-store
  clients: only the atomic effect of each call is modelled.
- Polling backoff, limits parsing, UUID recognition, feature flags and registries: single-branch facts.
