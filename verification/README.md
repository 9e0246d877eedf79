# Turnstile App Check Gateway: a verified model of its audit pipeline

The gateway exchanges Turnstile tokens for App Check tokens and verifies App Check
tokens for a reverse proxy. Every public request passes a fixed-window rate limiter
and leaves a trail of audit events. A policy decides which events are stored and which
are counted, an asynchronous recorder batches them, a transactional store keeps events
and per-minute rollups, and a dashboard pages through the events and charts the rollups.
This project models that path in Dafny and proves what it is relied on for.

`dafny verify dfyconfig.toml` checks everything.

## The parts

- `Text`, `Clock`: one-byte text with ASCII case mapping and trimming; instants and
  durations in whole nanoseconds, with the wrap-around and saturation of 64-bit arithmetic.
- `Event` (module `AuditEvent`): `PrepareEvent` changes an event through a reference;
  safe metadata; the rollup of an event.
- `Policy` (`AuditPolicy`): the decision tree, and sampling with a shared generator.
  `PolicyClasses` says which events each rate and mode stores, and what is critical.
- `Store`, `Repository`: the two tables, the merge of a batch of rollups, and the
  transactions. A transaction takes effect as a whole or not at all, and an error means
  no effect; which ones commit is a parameter.
- `Recording`: the synchronous recorder, which is the specification; the consumer's
  buffers, its flush and its retry loop, sequentially.
- `Protocol` and the files named after it: the asynchronous recorder as a state machine.
  Any number of callers of Record, Flush, Reset and Close, one bounded channel and one
  consumer take steps in any order. Which select branch is taken, which timer fires, which
  context ends and which transaction commits is open. `ProtocolFifo`, `ProtocolControl` and
  `ProtocolStore` hold the invariants; `ProtocolTheorems`, `ProtocolReset`, `ProtocolClose`
  and `ProtocolEnqueue` what follows for every run; `ProtocolRuns` builds runs for what may
  happen; `ProtocolRetry` shows that the consumer's steps during a flush are the retry loop.
- `Listing`: the keyset query, its cursors, the legacy offset pages, and walks over a
  table that stays fixed or changes between page loads.
- `Sums`, `Metrics`: sums over the rollup table, the summary columns, the time series.
- `RateLimit`: the limiter's map, changed in place, and the runs of its calls.
- `Handlers`: the exchange and verify handlers and the limiter in front of them, as
  emitters of events, with the deferred final record. `Trails` says what a trail tells: the
  cause by its code, and the services by its steps.
- `EndToEnd`: runs of the asynchronous recorder whose Records are those of public requests;
  `EndToEndRuns` builds one. `Columns` gives the summary columns as numbers of requests.
- `Dashboard`: the cursor stack behind the audit page, and its row of page numbers.
- `Duration` (`DurationCodec`): the token lifetime as text and back.

## Conditions the code needs

Each of these is exact: the property holds if and only if the condition does, and the
lemma named proves both directions.

- Twice the limiter's window must fit in 64 bits, or pruning deletes the entry it has just
  written and nothing is ever limited (`RateLimit.PruningUnobservable`).
- Twice the initial and twice the maximal backoff must fit in 64 bits, or a wait becomes
  negative (`Recording.BackoffIsDocumented`).
- A nil from Close means that everything sent before that Close looked has been flushed if
  it was the first one. For any other, some run returns nil with an item sent before and not
  stored: while the first one waits, after it timed out, after it reported a failure, and
  even after it returned nil, since a Record that was decided on before the recorder was
  closed can still put its item on the channel. That the consumer exited with success is
  what a nil means for the first Close, and for any other after the first has returned nil
  (`ProtocolClose.NilReliableExactly`). The consumer's one result goes to one Close, and it
  need not be the one that waits for it (`ProtocolClose.ResultGoesToOne`,
  `ProtocolClose.PollerMayTakeResult`).
- Between flushes the tables are those of the synchronous recorder since the last Reset, in
  every run, if the repository is atomic. Without one, a flush that has both events and
  counts to store takes two transactions, and a Reset between them can remove the events
  for good and keep the counts although nothing has failed: no moment for the Reset
  explains such tables (`ProtocolReset.SyncedExactlyIfAtomic`). That is all that can go
  wrong: the tables are then those of the synchronous recorder on the same items, with
  exactly the items of such torn flushes counted and not stored
  (`ProtocolTheorems.AlwaysSynced`, `ProtocolTheorems.TornExactly`).
- A result must be empty or not all white space, or the store's second preparation turns a
  recorded failure into a success (`AuditEvent.PreparingTwice`).
- Legacy offset paging needs a limit, or a listing, of at most 200, since the page size is
  clamped and the step is not (`Listing.LegacyWalkReturnsEverything`).
- Rollups and events are selected by the same ranges for whole minutes
  (`Metrics.WholeMinutesExactly`), and by the same status classes for the documented
  class names (`Metrics.ClassFilterAgreesExactly`): `+4xx` selects events and no rollup
  (`Metrics.ClassSpellings`).
- The series needs a bucket of whole seconds (`Metrics.SeriesIsLossless`), and no whole
  minute of the range may come before its first point, which can happen before the epoch
  only (`Metrics.LosslessStarts`). A bucket shorter than a second divides by zero
  (`Metrics.Series`).
- A lifetime survives its text form unless it is out of range or negative with a fraction
  of a second (`DurationCodec.RoundTripExactly`).
- A request is counted as a success when it was served, unless a service panicked (the
  deferred record still sees status 200) or a token was denied with a configured status
  below 400, which the configuration allows (`Handlers.CountedAsServed`).

Merging a batch of rollups is a different case. Its text key lets a `|` move between fields
and omits the bucket size, so it may conflate primary keys (`Store.PipeMovesBetweenFields`).
A batch of any length that conflates none is merged faithfully (`Store.MergingIsFaithful`),
and that is the case exactly when every pair in it is merged faithfully (`Store.PairsDecide`).
For a pair the condition is also necessary (`Store.MergingTwo`); for longer batches it is
not, since conflations can cancel out (`Store.ConflationMayCancel`). Public requests meet it,
even with a `|` in the route (`Handlers.RequestsAreRecordable`). The merged rows have
distinct primary keys, as PostgreSQL demands of one upsert, exactly when each primary key
has one spelling in the batch (`Store.MergedRowsAreDistinct`), as it has in any batch of
public requests on routes without outer white space (`EndToEnd.RequestsHaveOneSpelling`).

The usual estimate of `(n + 1) * max` admissions in `n` windows is one too high
(`RateLimit.FixedWindowBound`, `RateLimit.BoundIsReached`).

## Model

| member | source | states |
|---|---|---|
| ProtocolTheorems.AsyncRefinesSync | internal/audit/recorder.go:385-517 | for every interleaving, batch, tick, failed attempt and retry, Resets included, with either kind of repository: when the consumer has exited with success and the channel is empty, the tables are exactly those the synchronous recorder makes, from the outcome of the last Reset, of the items sent since, in send order, the items of flushes torn since then only counted; with an atomic repository there are none |
| ProtocolTheorems.AlwaysSynced | internal/audit/recorder.go:408-517 | at every moment of every run, unless a flush has stored its events only, the tables are the synchronous run, from the outcome of the last Reset, of the items flushed since, those of torn flushes only counted; with an atomic repository that is always all of them as sent |
| ProtocolTheorems.TornExactly | internal/audit/recorder.go:502-515 | an item is torn exactly when the second transaction of its flush succeeded over a Reset that had removed the events of the first, and no Reset has come since; a flush that is retried instead, or that takes one transaction, tears nothing |
| ProtocolTheorems.TornFlushHadBoth | internal/audit/recorder.go:484-515 | only a flush with both events and counts, to a repository that is not atomic, can be torn |
| ProtocolTheorems.Conservation | internal/audit/recorder.go:213-284 | in every reachable state the sent events and rollups are the flushed, then the buffered, then the queued ones, in order; sent plus dropped equals the two enqueue counters plus the calls not yet counted |
| ProtocolTheorems.StoreAlways | internal/audit/recorder.go:408-517 | in every reachable state the tables are the flushed items on top of the last Reset, those of torn flushes only counted, and as many events of a half-done flush as are already in |
| ProtocolTheorems.FlushIsBarrier | internal/audit/recorder.go:286-305 | once a Flush has returned nil, every item sent before its call and after the last Reset that came before the call is stored, then and in every later state before the next Reset, or only counted if its flush was torn; without any Reset that is every item sent before the call |
| ProtocolTheorems.FlushOutlivesEarlierResets | internal/audit/recorder.go:286-305 | with an atomic repository and no Reset committing from the call on, a Flush that returned nil leaves stored, for as long, all that was sent before the call on top of what the last Reset had left |
| ProtocolReset.ResetIsBarrier | internal/audit/recorder.go:374-379 | once a Reset has returned nil, nothing sent before its call is stored or reappears; rows are a marker or later, counts are those of later items, and with no later item a marker is all there is |
| ProtocolReset.ResetLeavesMarker | internal/audit/recorder.go:374-379 | a Reset with no Record since its call leaves exactly its prepared marker, no rollup, empty buffers and an empty channel |
| ProtocolReset.SyncedExactlyIfAtomic | internal/audit/recorder.go:374-379 | in every reachable state between flushes, whatever Resets there were, the tables are the synchronous run since the last one, and so that of some suffix of what is flushed, iff the repository is atomic; otherwise no suffix may explain them although no attempt has failed |
| ProtocolReset.ResetMayTear | internal/audit/recorder.go:502-515 | for every configuration without an atomic repository, a reachable state in which a Reset has torn a flush: all attempts succeeded, the one item is flushed and counted, its event is not there, and no moment for the Reset explains the tables |
| ProtocolClose.CloseHandshake | internal/audit/recorder.go:307-348 | at most one close message and one result ever; whenever the consumer wants to reply there is room; every Close that reports a result reports the consumer's last word |
| ProtocolClose.ExitStores | internal/audit/recorder.go:431-442 | once the consumer has exited with success the tables are the synchronous run of everything sent between the last Reset and the final drain, items of torn flushes only counted |
| ProtocolClose.FirstCloseIsTold | internal/audit/recorder.go:326-348 | in every run the Close that found the recorder open never returns for want of a result; its nil means that the consumer succeeded, that its final drain came after the look, so that everything sent before the look is flushed, and that the tables are the synchronous run up to that drain |
| ProtocolClose.NilReliableExactly | internal/audit/recorder.go:316-348 | a nil from Close means, in all runs, the consumer's success iff this Close was the first or the first had already returned nil, and that everything sent before its look is flushed iff it was the first; in every other standing some run returns nil with an item sent before and the tables untouched |
| ProtocolClose.ResultGoesToOne | internal/audit/recorder.go:335-348 | once a Close has the consumer's result no other one ever gets it; if that was not the first, the first can only time out |
| ProtocolClose.PollerMayTakeResult | internal/audit/recorder.go:317-325 | a run in which a polling Close takes the result while the first one waits |
| ProtocolClose.RecordAfterCloseIsNoop | internal/audit/recorder.go:213-216 | a Record that starts after the recorder was closed changes no queue, table or counter, now or later |
| ProtocolClose.TooSoonWhileWaiting | internal/audit/recorder.go:316-325 | with no timeout anywhere, a Close beside a waiting one can return nil with an item still in the channel |
| ProtocolClose.TooSoonAfterTimeout | internal/audit/recorder.go:327-332 | after a Close whose message was never taken, the next one can return nil although the consumer was never told |
| ProtocolClose.TooSoonAfterFailure | internal/audit/recorder.go:316-325 | after a Close that reported a failed flush, the next one can return nil with the item unsaved |
| ProtocolClose.TooSoonAfterSuccess | internal/audit/recorder.go:213-252 | after a Close that returned nil, a Record decided on before can still send, and the next Close returns nil with that item unsaved |
| ProtocolTheorems.BatchBounds | internal/audit/recorder.go:419-430 | until a flush fails, at most BatchSize-1 records are pending between receives, a flush triggered by an item carries BatchSize or BatchSize+1, and attempts stay within the allowed number |
| ProtocolTheorems.RetriesAreFailedAttempts | internal/audit/recorder.go:450-463 | in every run the retry counter is the number of failed attempts |
| ProtocolEnqueue.DropsAreExplained | internal/audit/recorder.go:253-284 | in every run, an item is dropped at once only at a full channel, with dropping on, and if it is not critical; any other item is dropped only by a Record that gives up after it had found the channel full and had waited; nothing else is ever dropped |
| ProtocolEnqueue.DropStep | internal/audit/recorder.go:253-284 | a step drops one item or none, exactly when it is such a step, and then the channel is as it was |
| ProtocolEnqueue.RoomIsUsed | internal/audit/recorder.go:254-258 | in every run a Record that finds room puts its item last on the channel, drops nothing and does not wait |
| ProtocolEnqueue.OnlyCriticalWaits | internal/audit/recorder.go:260-266 | an item that is not critical never waits while dropping is on |
| ProtocolEnqueue.WaitingSince | internal/audit/recorder.go:259-276 | a waiting Record found the channel full at some earlier step and has waited ever since |
| ProtocolEnqueue.ErrorsAreCancellations | internal/audit/recorder.go:243-248 | in every run Record has reported an error, or is about to, as often as a context ended while it waited for room |
| ProtocolEnqueue.FlushesBegin | internal/audit/recorder.go:419-442 | in every run a flush begins exactly when an item fills a batch, a tick finds something pending, or a drain for a Flush, a Reset or a Close ends with something pending |
| ProtocolEnqueue.FlushesFailLate | internal/audit/recorder.go:447-481 | a flush is given up only at the failure of its last allowed attempt, or by a Close that runs out of time, and nothing buffered is lost |
| ProtocolEnqueue.FlushAfterCloseFails | internal/audit/recorder.go:286-292 | a Flush or a Reset called after the recorder was closed never returns nil |
| ProtocolRetry.StepsAreRetry | internal/audit/recorder.go:447-481 | whatever the world does, the consumer's steps during a flush can be made and end with the tables, the result, the failures and the buffers of the retry loop |
| ProtocolTheorems.ControlAlways | internal/audit/recorder.go:213-445 | the queue, control, reply, close and counter invariants hold in every state of every run |
| ProtocolFifo.IdTestIsPersist | internal/audit/recorder.go:390-397 | the consumer's test for an event id agrees with the policy's decision to store, for every prepared event |
| ProtocolFifo.ConsumerKeepsFifo | internal/audit/recorder.go:390-418 | receiving, draining and flushing keep the order of sent items |
| ProtocolControl.ConsumerKeepsPc | internal/audit/recorder.go:408-481 | attempt numbers stay in bounds, success means empty buffers, and nothing is received after the final drain |
| ProtocolControl.ConsumerKeepsReplies | internal/audit/recorder.go:426-428 | a request is answered with success only after everything sent before it was flushed |
| ProtocolControl.ClientKeepsGate | internal/audit/recorder.go:316-333 | callers keep the close mutex, the single close message and the single result consistent |
| ProtocolControl.ClientKeepsStats | internal/audit/recorder.go:243-249 | every item that reached the channel or was dropped is counted exactly once |
| ProtocolStore.EventsInKeepsStore | internal/audit/recorder.go:502-508 | inserting the buffered events again over some of them already stored adds only the missing ones |
| ProtocolStore.RollupsInKeepsStore | internal/audit/recorder.go:509-515 | the second half of a two-step flush completes the batch |
| ProtocolStore.BatchInKeepsStore | internal/audit/recorder.go:484-501 | one transaction stores the whole batch |
| Recording.SyncRecorder.Record | internal/audit/recorder.go:35-70 | the tables and counters after every outcome: on success exactly one prepared and decided event more; a failure stores no event, and its rollup only if the repository is not atomic and the first write went through |
| Recording.SyncRunIsBatch | internal/audit/recorder.go:35-70 | recording events one at a time leaves the tables that one batch of all of them leaves |
| Recording.Consumer.FlushOnce | internal/audit/recorder.go:483-517 | one attempt on any buffers, over either kind of repository: what is stored and what is reported for each transaction outcome |
| Recording.Consumer.FlushWithRetry | internal/audit/recorder.go:447-481 | the loop stores, reports, waits and counts as the recursive specification of its attempts says |
| Recording.Consumer.Flush | internal/audit/recorder.go:408-418 | success empties the buffers and stores the batch exactly once, merged; failure keeps both buffers in order and has stored no rollup |
| Recording.Consumer.FlushQueued | internal/audit/recorder.go:398-428 | what is queued joins the buffers in order; success stores all of it once, failure keeps all of it |
| Recording.RetryEffect | internal/audit/recorder.go:447-517 | after any number of failed attempts a success stores the batch exactly once; a failure leaves the tables alone, or with all its events and no rollup |
| Recording.FailedFlushLosesNothing | internal/audit/recorder.go:408-418 | a failed batch flushed again with more behind it ends as if it had not failed |
| Recording.PruneDuringRetry | internal/audit/recorder.go:447-517 | pruning between the failed attempts of a flush, from a cutoff that is not after anything in the batch, does no harm: the flush that succeeds in the end leaves what it would have left without the failures and with pruning after it |
| Recording.RetryBounds | internal/audit/recorder.go:447-481 | at most the allowed attempts, every failure counted, one wait after each failure that is not the last allowed one, the k-th wait being the loop's |
| Recording.BackoffIsDocumented | internal/audit/recorder.go:449-475 | the k-th wait is the initial one doubled k-1 times up to the maximum, for all k, iff both bounds can be doubled in 64 bits |
| Store.MergeRollups | internal/audit/storage/bunrepo/repository.go:531-565 | lists the merged rollups once each, in any map order, all with positive counts |
| Store.DefaultsFillIn | internal/audit/storage/bunrepo/repository.go:533-542 | a rollup without size, start or count gets a minute, the start of the bucket of its size that holds this moment, and one; nothing else changes |
| Store.Values | internal/audit/storage/bunrepo/repository.go:560-564 | ranging over the map yields every entry once, whatever the order |
| Store.MergeKeyIsPrimaryKey | internal/audit/storage/bunrepo/repository.go:543-551 | for rollups that storing does not change, with a pipe nowhere but in the endpoint, the text key and the primary key are equal together |
| Store.LegibleIsNonConflating | internal/audit/storage/bunrepo/repository.go:543-551 | rollups of one bucket size with a pipe nowhere but in the endpoint are never conflated, in batches of any length |
| Store.MergingIsFaithful | internal/audit/storage/bunrepo/repository.go:105-122 | for every table and every batch whose merging conflates no primary keys, upserting the merged rows in any order is adding the rollups one at a time |
| Store.AnyOrderWillDo | internal/audit/storage/bunrepo/repository.go:560-564 | the order in which the map gives its entries makes no difference to the table |
| Store.PairsDecide | internal/audit/storage/bunrepo/repository.go:531-565 | a batch of any length conflates nothing iff each pair of its rollups is merged faithfully |
| Store.MergedRowsAreDistinct | internal/audit/storage/bunrepo/repository.go:105-122 | the merged rows have pairwise distinct primary keys iff each primary key has one spelling in the batch |
| Store.ConflationMayCancel | internal/audit/storage/bunrepo/repository.go:531-565 | a batch of four that conflates two pairs of primary keys and is merged faithfully all the same |
| Store.MergingTwo | internal/audit/storage/bunrepo/repository.go:531-565 | a pair of rollups is merged faithfully, for any table, iff equal text keys mean equal primary keys |
| Store.PipeMovesBetweenFields | internal/audit/storage/bunrepo/repository.go:543-551 | two rollups with one text key and different primary keys |
| Store.UpsertIsSum | internal/audit/storage/bunrepo/repository.go:105-122 | after any upserts a key holds what it held plus the total of its rollups, and is present iff it was or has one |
| Store.SameRow | internal/audit/storage/bunrepo/repository.go:517-529 | two rollups share a row iff they agree in start, code and whole seconds of size and are spelled alike, but for outer white space, and for case in method, result and class |
| Store.InsertReplay | internal/audit/storage/bunrepo/repository.go:88-103 | inserting rows that are there already, with more behind them, adds only the new ones |
| Store.InsertKeeps | internal/audit/storage/bunrepo/repository.go:88-103 | stored rows stay first and in order, and every inserted id is present |
| Store.InsertKeepsUnique | internal/audit/storage/bunrepo/repository.go:93-101 | ids stay unique |
| Repository.BatchingIsHomomorphic | internal/audit/storage/bunrepo/repository.go:44-59 | one batch or two, each merged on its own, leave the same tables, if the whole conflates no primary keys |
| Repository.FirstIdWins | internal/audit/storage/bunrepo/repository.go:93-101 | of the events with one id, the first stays |
| Repository.Repository.AppendBatch | internal/audit/storage/bunrepo/repository.go:18-29 | inserts the prepared rows or nothing, and leaves the rollups |
| Repository.Repository.AppendMetricRollups | internal/audit/storage/bunrepo/repository.go:31-42 | upserts the merged rollups or nothing; if nothing is conflated this is adding each in turn |
| Repository.Repository.AppendAuditBatch | internal/audit/storage/bunrepo/repository.go:44-59 | both tables change together or neither does |
| Repository.Repository.PrepareEventModels | internal/audit/storage/bunrepo/repository.go:61-74 | one prepared row per event, in order |
| Repository.Repository.PrepareRollupModels | internal/audit/storage/bunrepo/repository.go:76-86 | no merged rollup is skipped for want of a count |
| Repository.Repository.Reset | internal/audit/storage/bunrepo/repository.go:273-291 | leaves exactly the prepared marker, or everything as it was |
| Repository.Repository.PruneRetention | internal/audit/storage/bunrepo/repository.go:293-305 | exactly the rows at or after the cutoff stay, each where it was in the order; exactly the rollups at or after it stay, with their counts; or nothing changes |
| Repository.PruningSettles | internal/audit/storage/bunrepo/repository.go:293-305 | ids stay unique, and pruning again from the same cutoff removes nothing more |
| Repository.PruneCommutes | internal/audit/storage/bunrepo/repository.go:293-305 | a prune from a cutoff that is not after anything in a batch can come before the batch or after it, if no row it removes has an id of the batch |
| AuditEvent.PrepareEvent | internal/audit/event.go:158-182 | changes the event in place to its prepared form, a nil event not at all |
| AuditEvent.PreparingTwice | internal/audit/event.go:158-182 | preparing again changes nothing that is stored iff the result was not blank; a blank one becomes a success; at most empty metadata becomes nil |
| AuditEvent.SafeMetadata | internal/audit/event.go:205-226 | keeps exactly the entries whose keys are not sensitive, with values made safe, whatever the map order |
| AuditEvent.MetadataIsSafe | internal/audit/event.go:205-251 | of the metadata exactly the entries are kept whose trimmed lower-case key contains none of the thirteen words; text of up to 256 bytes, numbers and nil stay, longer text is its first 256 bytes |
| AuditEvent.PreparationKeeps | internal/audit/event.go:158-182 | what is missing is filled in, action, path, endpoint and status stay, method and result change in case and outer white space only, and the rest in length only |
| AuditEvent.StoredAsPrepared | internal/audit/storage/bunrepo/repository.go:459-487 | a prepared event is stored as it is, but for metadata of which nothing is left |
| AuditEvent.CountedOnce | internal/audit/event.go:184-203 | an event is counted once, under its own fields, in the minute that holds it; a code below 1 has no class |
| AuditEvent.IsSensitiveKey | internal/audit/event.go:228-251 | true iff one of the listed parts occurs in the trimmed lower-case key |
| Text.ContainsExactly | internal/audit/event.go:245-249 | the test for a part is whether it stands anywhere in the text |
| Text.TrimSpaceTrims | internal/audit/event.go:176-177 | trimming takes white space off both ends and nothing else |
| Text.CaseMapping | internal/audit/event.go:176-177 | case mapping changes the letters of the other case and nothing else |
| AuditPolicy.Policy.DecideEvent | internal/audit/policy.go:93-171 | decides as the decision table says for the next number drawn, and draws at most one |
| AuditPolicy.Policy.Sample | internal/audit/policy.go:173-183 | draws exactly when the rate leaves the answer open |
| AuditPolicy.NormalizePolicyConfig | internal/audit/policy.go:54-91 | computes the normalised configuration field by field |
| AuditPolicy.NormalizedSettles | internal/audit/policy.go:54-91 | normalised rates lie in 0..1 and the mode is known; normalising again changes nothing |
| AuditPolicy.CountingIgnoresSampling | internal/audit/policy.go:93-171 | for any two configurations and draws an event is counted in both or neither, and exactly for the four counted actions |
| AuditPolicy.HigherRatesKeepMore | internal/audit/policy.go:130-183 | raising sample rates never loses a stored event |
| AuditPolicy.FullRatesStoreWhatTheyCount | internal/audit/policy.go:130-153 | with all rates one every counted event is stored |
| PolicyClasses.OneRateStoresItsClass | internal/audit/policy.go:130-144 | with one of the four rates 1 and the others 0, exactly the summaries of its class are stored, whatever is drawn: the class is by action, endpoint or path, and by result or status |
| PolicyClasses.OtherRatesDoNotMatter | internal/audit/policy.go:130-153 | the other three rates change no decision in that class |
| PolicyClasses.RateIsTheShare | internal/audit/policy.go:173-183 | with equal rates a summary is stored exactly for the draws below them |
| PolicyClasses.StepsByMode | internal/audit/policy.go:155-171 | failed steps are stored in the modes failure_step and step, successful ones only in step and at the success rate of their side, none in summary |
| PolicyClasses.OthersAreStored | internal/audit/policy.go:103-128 | every event that is neither a public summary nor a public step is stored |
| PolicyClasses.PriorityByKind | internal/audit/policy.go:103-171 | critical are the administrative and denied events and all that went wrong, but the system start and the steps that mode summary skips; best effort are successful steps and successes of verification |
| PolicyClasses.StoredFailuresAreCritical | internal/audit/policy.go:123-171 | whatever went wrong and is stored or counted waits for room, the system start aside |
| PolicyClasses.PublicByAction | internal/audit/policy.go:103-171 | the public flag is by action alone |
| PolicyClasses.ReasonTells | internal/audit/policy.go:103-171 | the reason tells the kind of a public event, and whether the mode kept a step from being stored |
| PolicyClasses.DefaultConfiguration | internal/audit/policy.go:54-63 | with nothing set, everything public that went wrong is stored, and of what succeeded the summaries of exchanges only |
| PolicyClasses.DefaultKeepsFailures | internal/audit/policy.go:130-144 | with nothing set, a verification that failed with 401 is stored and a successful one is not |
| PolicyClasses.SetRatesAreKept | internal/audit/policy.go:64-91 | a configuration with anything set keeps a known mode and its rates, moved into 0..1; a negative rate means 0 for the successes of verification and 1 otherwise |
| Metrics.RollupsAreAView | internal/audit/storage/bunrepo/repository.go:307-347 | in every run at full rates with fresh ids, each of the nine summary columns over rollups equals the column recomputed from the stored events, for whole minutes and documented classes |
| Metrics.ClassFilterAgreesExactly | internal/audit/storage/bunrepo/repository.go:444-453 | the rollup filter by class name and the event filter by code range agree on all codes 100..599 iff the name is a documented class or empty |
| Metrics.ClassSpellings | internal/audit/storage/bunrepo/repository.go:444-453 | a class may be spelled with a plus and selects events by its hundred; a number that is not 1 to 5, or has a minus, selects by none |
| Metrics.AtoiReads | internal/audit/storage/bunrepo/repository.go:446-448 | a number is read from its digits with either sign or none iff it fits in 64 bits |
| Metrics.WholeMinutesExactly | internal/audit/event.go:184-196 | an instant and its minute fall in the same ranges iff the range is whole minutes or empty |
| Metrics.BlankResultSplitsTheView | internal/audit/event.go:173-177 | an event whose result was blank is counted as a failure and stored as a success |
| Metrics.Series | internal/audit/storage/bunrepo/repository.go:258-270 | the loop produces the points from the bucket of the start up to the end of the range, and none for a bucket under a second |
| Metrics.SeriesIsLossless | internal/audit/storage/bunrepo/repository.go:234-271 | the counts of the points add up to the summary's total, for every table (or every table of whole-minute rows) and range from the epoch on, iff the bucket is whole seconds |
| Metrics.LosslessStarts | internal/audit/storage/bunrepo/repository.go:455-457 | for a bucket of whole seconds and any range, before the epoch too, the series loses nothing of rows at whole minutes iff no whole minute of the range comes before its first point, which lies after the start only before the epoch and off the bucket boundaries |
| Metrics.BucketsAreOnThePoints | internal/audit/storage/bunrepo/dialect.go:25-38 | every bucket the database groups a selected row under is a point of the series |
| Metrics.PointsAreBuckets | internal/audit/storage/bunrepo/repository.go:267-269 | the i-th point is i buckets after the first and within the range |
| Metrics.AutomaticBucketPoints | internal/audit/storage/bunrepo/repository.go:429-442 | with the automatic bucket any window of up to seven days has at most 29 points |
| Metrics.BucketLadder | internal/audit/storage/bunrepo/repository.go:429-442 | which bucket each window gets, that a longer window never gets a shorter one, and that seven days are at most 28 buckets |
| Metrics.FilterDefaults | internal/audit/storage/bunrepo/repository.go:411-427 | a filter with no end ends now, one with no start starts a day earlier, and a bucket that is set stays |
| Sums.UpsertConserves | internal/audit/storage/bunrepo/repository.go:105-122 | every sum over the table grows by exactly what is upserted |
| Listing.List | internal/audit/storage/bunrepo/repository.go:140-192 | the page that the keyset or offset query defines, with the total of the filter and the cursor of its last row |
| Listing.CursorRoundTrip | internal/audit/cursor.go:16-45 | encoding accepts exactly the cursors decoding can return, and the two are inverse |
| Listing.PageExists | internal/audit/storage/bunrepo/repository.go:184-191 | listing fails only for a garbled cursor; there is a next cursor iff there is a next page, and it is the last row's |
| Listing.ListedWorks | internal/audit/storage/bunrepo/repository.go:163-170 | the listing has exactly the matching rows, newest first, in strict order |
| Listing.NewestFirst | internal/audit/storage/bunrepo/repository.go:163-164 | rows come by time, newest first, and at one instant by sequence number, highest first |
| Listing.FirstPageSize | internal/audit/storage/bunrepo/repository.go:398-404 | the first page has as many rows as there are up to the limit: 50 without one, at most 200 |
| Listing.PastRow | internal/audit/storage/bunrepo/repository.go:149-151 | the keyset condition of a row's cursor selects exactly what follows the row |
| Listing.KeysetPage | internal/audit/storage/bunrepo/repository.go:140-192 | page k of the cursor walk is the k-th slice of the listing, with the total of the whole |
| Listing.KeysetIsOffset | internal/audit/storage/bunrepo/repository.go:149-167 | page k by cursor and the page at offset k times the size have the same items and total |
| Listing.WalkReturnsEverything | internal/audit/storage/bunrepo/repository.go:140-192 | following the cursors ends and returns the whole listing in order |
| Listing.AuditEvents | internal/admin/api.go:92-123 | bad request iff the cursor is garbled, never a server error, and the next cursor of the mode in use |
| Listing.LegacyWalkReturnsEverything | internal/admin/api.go:102-111 | following legacy offsets returns the whole listing iff the limit or the listing is at most 200 |
| Listing.WalkNeverRepeats | internal/audit/storage/bunrepo/repository.go:140-192 | whatever is inserted or pruned between page loads, later pages hold only rows strictly further on |
| Listing.WalkMissesNothing | internal/audit/storage/bunrepo/repository.go:140-192 | every matching row present at each load of a finished walk is returned by exactly one page |
| RateLimit.FixedWindowLimiter.constructor | internal/middleware/rate_limit.go:28-35 | starts empty, with one minute for a window that is not positive |
| RateLimit.FixedWindowLimiter.Allow | internal/middleware/rate_limit.go:54-70 | the new map and the answer are those of the charge-then-prune specification |
| RateLimit.FixedWindowLimiter.PruneLocked | internal/middleware/rate_limit.go:72-78 | deleting while ranging keeps exactly the entries no older than two windows |
| RateLimit.Middleware | internal/middleware/rate_limit.go:39-51 | a disabled limiter or one without quota passes everything and keeps its map; otherwise the verdict is the limiter's |
| RateLimit.PruningUnobservable | internal/middleware/rate_limit.go:54-78 | on all monotone runs the pruning limiter answers as one that never deletes, iff twice the window fits in 64 bits |
| RateLimit.NothingStaleAfterOpening | internal/middleware/rate_limit.go:72-78 | right after any window opens every entry is at most two windows old |
| RateLimit.FixedWindowBound | internal/middleware/rate_limit.go:54-70 | any half-open interval of n windows admits a key at most (n+1)*max-1 times |
| RateLimit.BoundIsReached | internal/middleware/rate_limit.go:54-70 | for every quota, every number of windows and every window longer than a nanosecond, some run reaches the bound |
| RateLimit.WindowsApart | internal/middleware/rate_limit.go:59-62 | the windows of a key open at least one window apart |
| RateLimit.EntriesInRange | internal/middleware/rate_limit.go:54-70 | without pruning, counts stay in 1..max and no window starts in the future |
| RateLimit.PrunedEntriesInRange | internal/middleware/rate_limit.go:54-78 | the same with pruning |
| RateLimit.KeysAreIndependent | internal/middleware/rate_limit.go:54-70 | for every window, overflowing ones included, a key is answered as if it were alone |
| Clock.SinceIsNearest | internal/middleware/rate_limit.go:59 | the age of an entry is the 64-bit duration nearest to the exact difference |
| Handlers.ExchangeHandler.Handle | internal/handlers/exchange.go:29-104 | for every request and answer of the services: the steps and then one summary are recorded, also when a service panics, and the status is the one documented for the outcome |
| Handlers.ExchangeHandler.Respond | internal/handlers/exchange.go:38-104 | status, steps with their metadata, and the limited-use flag, as far as the request got |
| Handlers.VerifyHandler.Handle | internal/handlers/verify.go:29-58 | the same for verification: a denial has two steps, and the summary carries the status written |
| Handlers.PublicRoutes.Serve | internal/httpserver/server.go:51-60 | a request that reached the limiter leaves the trail of its verdict and outcome; the client gets that status, or 500 after a panic |
| Handlers.SummaryIsCounted | internal/audit/policy.go:93-128 | of a request's events the last is of a counted action and no other is |
| Handlers.OneRollupPerRequest | internal/handlers/exchange.go:32-36 | a request is counted by exactly one rollup, its summary's, for every verdict, outcome, policy and draw |
| Handlers.EveryRequestIsCountedOnce | internal/handlers/verify.go:31-33 | over any public requests, their events interleaved in any way, the rollup table grows by the number of requests, in total and under any condition that ignores the minute |
| Handlers.RollupsIgnoreThePolicy | internal/audit/policy.go:93-171 | two runs offered the same events at the same times end with the same rollup table, whatever the rates, mode, draws and generated ids |
| Handlers.SkippedAddNothing | internal/audit/recorder.go:221-228 | what the asynchronous recorder does not send would have changed neither table |
| Handlers.RequestsAreRecordable | internal/audit/event.go:184-203 | whatever public requests do, and however they interleave, their events meet the assumption of the recorder's theorems, even with a pipe in the route |
| Handlers.CountedAsServed | internal/handlers/audit.go:24-45 | the summary says success iff the request was served, for exactly the requests without a panic and without a denial below 400 |
| Handlers.StepsAgreeWithSummary | internal/handlers/exchange.go:77-98 | without a panic the last step has the summary's status and succeeds iff the request was served |
| Trails.ExchangeCodes | internal/handlers/exchange.go:38-104 | the code of an exchange by its cause, in order of precedence: 429 limiter, 415 content type, 403 origin, 400 body, token or refusal, 502 service; it is 5xx iff a service that was asked failed, and 4xx iff the request was turned away or its token refused; there is no response iff a service panicked |
| Trails.VerifyCodes | internal/handlers/verify.go:35-58 | the code of a verification by its cause: 429, the configured failure for a token missing or not accepted, the configured success otherwise |
| Trails.SummaryHasFinalCode | internal/handlers/audit.go:24-38 | the summary carries that code |
| Trails.StepsNameServices | internal/handlers/exchange.go:77-98 | an exchange leaves one step for each service that answered, in the order asked, with its name, the code and result of its answer, the flag, and the error codes of a refusal |
| Trails.StepsOfVerification | internal/handlers/verify.go:36-57 | a verification leaves one step if its token was accepted and two if it was denied or missing, with the configured codes |
| Trails.ResultByCode | internal/handlers/audit.go:24-29 | the summary says denied for the limiter, failure from 400 on, success below |
| Trails.SummaryFlag | internal/handlers/exchange.go:31-36 | the summary of an exchange has the flag of a request that got as far as a token; no other summary has metadata |
| Trails.HandlersMetadataIsKept | internal/audit/event.go:228-251 | preparation keeps all the keys the handlers use, with their short values |
| Trails.StoredStepsNameServices | internal/handlers/exchange.go:106-113 | the steps of a request are stored with all their keys and the service they name |
| EndToEnd.EveryRequestReachesTheTable | internal/audit/recorder.go:213-517 | in every finished run without a Reset whose Records are those of public requests, none dropped or refused, the rollup table has grown by the number of requests, in total and under any condition that ignores the minute, whatever the policy, interleaving, batches, retries and repository |
| EndToEnd.ServedRollupsAreAView | internal/audit/storage/bunrepo/repository.go:307-347 | at full rates and with fresh ids, the nine summary columns over the rollups such a run leaves equal the columns recomputed from the events it leaves |
| Columns.ColumnsCountRequests | internal/audit/storage/bunrepo/repository.go:307-347 | in such a run each of the nine columns, under any filter of documented class whose range covers the table, grows by exactly the number of requests that the filter asks for and that belong there: by route, verdict and final code |
| Columns.SuccessesAreServed | internal/audit/storage/bunrepo/repository.go:313-315 | from an empty table and unfiltered, if nothing panicked and no denial is configured below 400, the success columns are the numbers of exchanges and of verifications that were served |
| Columns.SucceededIsServed | internal/handlers/audit.go:24-29 | then a request succeeds iff it was served |
| Columns.KeyInColumn | internal/audit/storage/bunrepo/repository.go:383-396 | a request is counted in a column under a filter iff it is asked for and belongs there |
| EndToEnd.ServedTables | internal/audit/recorder.go:213-284 | a finished run without a Reset whose Records are those of public requests, none dropped or refused, ends with the tables of the synchronous recorder on their events, in the order the Records were settled |
| EndToEndRuns.SomeRunServes | internal/audit/recorder.go:213-445 | for every configuration, tables and kind of repository there is such a run that serves a request |
| EndToEnd.RequestsHaveOneSpelling | internal/audit/storage/bunrepo/repository.go:105-122 | any batch of the events of public requests on trimmed routes spells each primary key in one way, so its merged rows have distinct keys |
| Dashboard.AuditView.LoadAudit | frontend/src/App.svelte:221-232 | a load moves cursor, index and stack together and keeps the chain of cursors |
| Dashboard.AuditView.Loaded | frontend/src/App.svelte:227-231 | the page becomes the one the current cursor opens on the table as it is by then |
| Dashboard.AuditView.Reload | frontend/src/App.svelte:196-262 | starts again at the first page, where the walk on any table begins, with the filters and the page size given, even while a page is loading |
| Dashboard.AuditView.LoadNextAuditPage | frontend/src/App.svelte:234-237 | one page on, iff there is a next cursor and nothing is loading; the cursors so far stay and the next one is added, whatever happens to the table |
| Dashboard.AuditView.LoadPreviousAuditPage | frontend/src/App.svelte:239-242 | one page back, iff there is one and nothing is loading, to the cursor that opened it |
| Dashboard.AuditView.LoadAuditPageNumber | frontend/src/App.svelte:244-256 | to the nearest known page, with the cursors that opened it and the pages before it; each is that of the walk on a fixed table |
| Dashboard.AuditView.CursorForPageIndex | frontend/src/App.svelte:387-391 | the cursor that opened a page at or before the current one |
| Dashboard.ShownIsSlice | frontend/src/App.svelte:221-256 | on a fixed table the page at index i is rows i*size up to (i+1)*size, and there is a next page iff rows remain |
| Dashboard.KnownPages | frontend/src/App.svelte:113-115 | on a fixed table the known pages are those up to the current one and one more iff rows remain; only then does the number after the current one lead on |
| Dashboard.AuditView.PaginationItems | frontend/src/App.svelte:113-115 | the page numbers shown cover the known pages and contain the current one |
| Dashboard.BuildPaginationItems | frontend/src/App.svelte:363-385 | at most seven items that cover pages 1 to the last without gap or repetition, each ellipsis hiding at least one page, with the current page and its neighbours |
| Dashboard.SpanIncreases | frontend/src/App.svelte:363-385 | such page numbers are strictly increasing |
| DurationCodec.RoundTripExactly | internal/firebaseappcheck/token.go:53-68 | printing and parsing returns the same milliseconds iff 0 <= ms <= 9223372036854, or ms is negative, in range and whole seconds |
| DurationCodec.ParseOfPrintedPositive | internal/firebaseappcheck/token.go:53-68 | a count that is not negative is read back exactly, or refused when its nanoseconds leave 64 bits |
| DurationCodec.ParseOfPrintedNegative | internal/firebaseappcheck/token.go:53-68 | a negative count loses the milliseconds that do not fill a second |
| DurationCodec.NumberOfUnits | internal/firebaseappcheck/token.go:62-68 | a number of any one unit is read as that many nanoseconds, with its sign, as far as they fit in 64 bits |
| DurationCodec.NoUnit | internal/firebaseappcheck/token.go:62-68 | a positive number without a unit is refused |
| DurationCodec.Refused | internal/firebaseappcheck/token.go:62-68 | so is text that starts with neither a number nor a point, after a sign or none |
| DurationCodec.LoneZero | internal/firebaseappcheck/token.go:62-68 | a lone zero needs no unit |

## Left out

- Turnstile and Firebase clients, OAuth, JWT signing, key parsing: network and cryptography; their answers are parameters of the handlers.
- SQL engines, drivers, connection handling and schema: replaced by two tables with all-or-nothing transactions. A commit that succeeds but reports an error is not modelled.
- Clocks, timers, contexts and random generators: inputs. Limiter times are assumed monotone in the order the lock is taken; the clock is read just before it.
- Base64, JSON and the calendar text of cursors, and of the times in merge keys and bucket names: a cursor is its value or garbage, a time in a merge key is its decimal text, a bucket is its number of seconds.
- Text beyond ASCII: case mapping and trimming of other letters, and the spelling of microseconds with a Greek letter.
- Floating point: sample rates are real numbers, so NaN and rounding are not modelled, and a fraction of a duration is exact where the Go parser rounds down in binary; nine digits of seconds are exact in both.
- Overflow of the 64-bit counters, of stored counts, and of `offset + limit` in the legacy paging (internal/admin/api.go:110).
- Event fields that are only carried along: actor source, address, request id, duration, error code, the sequence number outside listings, and the messages of step events.
- Get, the audit options, the other admin endpoints, configuration, authentication, CORS and proxy headers: many branches, each settled by reading it.
- Rendering, charts, fetching and filters in the dashboard; failed page loads, replies that arrive out of order, and filters edited but not applied.
- Logging, the statistics of flushes and of a full queue, and those of skipped and sampled events in the asynchronous recorder: they only observe.
- ProtocolTheorems.AsyncRefinesSync: compares rows in insertion order, not the sequence numbers the database hands out, and assumes that no merge would conflate primary keys of the items sent, as for public requests, and that no event is from the first minute of year 1.
- Protocol: no step prunes, so "every run" means every run without the pruner beside the recorder (cmd/turnstile-appcheck-gateway/main.go:245-258). Repository.PruneCommutes and Recording.PruneDuringRetry say what a prune does to one batch and to its retries.
- Protocol: channels, the mutex and the select statements are steps of a state machine on values, not objects; waiting time is not measured there. The sequential buffers and the retry loop are also the class Recording.Consumer.
- Listing.List: the total is always asked for, as the endpoint does; the row filter is any predicate. Rows are values, not models decoded from columns.
- Metrics.RollupsAreAView: assumes no prune and no reset, since those may cut a minute in half, results that are not blank, and endpoints that storing does not trim.
- Metrics.LosslessStarts: the database groups by the floor, as PostgreSQL and MySQL do; SQLite truncates toward zero as the start of the series does, which differs before the epoch only.
- Repository.Repository.PruneRetention: a day is 24 hours, as in UTC.
- Handlers.VerifyHandler.Handle: requires positive configured statuses, as the configuration loader checks; informational statuses are recorded as given.
- Handlers.EveryRequestIsCountedOnce: counts requests that have finished, and nothing dropped.
- EndToEnd.EveryRequestReachesTheTable: the same, in runs without a Reset, which empties the table.
- Handlers: a recorder is configured; without one nothing is recorded.
