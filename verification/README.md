# OmniToken: the counting guarantee, modelled and proved in Dafny

OmniToken reads usage events from growing log files, delivers them to a hub through crashes and lost
responses, and counts each one once. This project models that pipeline and the algorithms beside it and proves
what they promise. `dafny verify dfyconfig.toml` checks everything.

The pipeline, from the inside out:

- **Hub.** `Ingest` (envelope validator), `EventRows`, `EventStore`, `FastPath`, `EventTable`, `EventHistory`,
  `EventOrigin` and `EventTally` (the event table's insert, fork decision and guarded column updates, with and without
  the pre-load; what is stored, what it comes from and what is counted), `Procs` (live process
  reports), `Hub` (one transaction for payload and receipt).
- **Agent.** `Batching` (first-wins collapse and size-limited partition), `Outbox` (durable queue, sequence
  allocation, capacity), `Agent` (upload, drain, backoff).
- **Protocol.** `Delivery` (with `Trace`, runs of any step system) is the step system of one outbox, the hub and a network that loses, repeats, delays
  and reorders messages; requests and replies are sets that never shrink.
- **Collection.** `Cursor` (persisted scan state with rollback), `Scan` (`scanFile`), `LineParser` (what the
  newline-delimited parsers provide).
- **End to end.** `Pipeline`, `PipelineSteps`, `PipelineIdentity`, `EndToEnd`, `HubRows` and `PipelineProgress` put all of it in one step system in which files grow,
  passes are interrupted, saves fail and messages are lost between any two steps.

Beside it: `RespCache` (single-flight cache), `DeviceMerge` and `Fleet` (identity merge and the alias map),
`Spans`, `WorkTime`, `LiveSpeed` and `Blocks` (interval and window arithmetic), `Capacity` (calibration),
`Proxy` (stream observer and retry ring).

Code that updates state step by step is a class or a method with loops, proved against a specification function;
the theorems are lemmas about those functions, or about runs of the step systems built from them.

## What the code does not do, although it or its comments say so

- The provider column does not settle on one value in every order of evidence (internal/model/provider.go:120-124):
  two different labels of the same greatest rank keep whichever came first. `EventRows.ProviderOrderIndependence`
  gives the exact condition.
- Skipping probes on the pre-loaded row is not unconditionally equal to running them (internal/store/store.go:714-720).
  `FastPaths.FastPathExactlyWhen` gives the exact guard, `FastPaths.FastPathNeedsStableKeys` a batch that fails it;
  batches without dedup keys always meet it.
- A process report does not always replace its device's rows (internal/store/procs.go:55-58): rows observed at the
  very same instant stay (`Procs.SnapshotIff`, and `Procs.SameInstantKeepsBoth` for two reports that show it).
- Bridging does not cover an event that starts before the span it is bridged into (`Spans.IntervalsCoveredIff`,
  `Spans.LongEventReachesBack`).
- What a non-stream response leaves in the capture buffer depends on how it was cut into chunks once it exceeds
  the cap (`Proxies.CaptureIgnoresChunkingIff`), and a stream's last line is not read without its newline
  (`Proxies.OnlyWholeLinesCount`).
- The fleet list can omit both a merged device and the device its events are now filed under, when a retired name
  is taken into use again (`Fleets.RepresentedIffSettled`, `Fleets.ReusedNameHidesItsTarget`).
- The live window's clip at its end never cuts anything: the query has already dropped events that end later
  (`LiveSpeeds.SharesAreProper`).

## Assumptions

- Content hashes are injective: a delivery key is the content it names. JSON decoding is a parameter; the encoded
  length of an envelope is the part that does not depend on the sequence or the events, plus the sequence's digits,
  plus the events.
- Random batch ids never repeat, and the hub's authentication keeps one device from using another's id; both are
  the enabling conditions of the protocol's steps.
- A parser consumes whole lines only, and more input withdraws no event (`Pipeline.GoodParser`). Every
  newline-delimited format meets this (`LineParsers.LineParserIsGood`); for the sources that are parsed whole on every
  growth it is assumed.
- What the hub counts is stated where, in the run's own logs and in what other devices sent, an id always carries the
  same dedup key and a keyed id the same time (`Pipeline.Stable`). Sources without dedup keys, such as the Claude Code
  logs, meet this although their lines repeat an id at different times (`LineParsers.KeylessAgentCountsOnce`); that
  nothing is lost and that passes resume needs no such premise.
- A crash is a crash of a process. The outbox keeps a write-ahead log that is not synchronised at every commit and the
  cursor file is not synchronised either, so a power failure could undo an accepted delivery after the cursor moved on;
  such failures are outside the model.
- A storage transaction is atomic: it commits as a whole or leaves no trace, at the caller's choice.
- Times, counts and sizes are unbounded integers, except the sequence number, whose 64-bit limit is explicit;
  rates and percentages are real numbers.

## Model

| member | source | states |
|---|---|---|
| `EndToEnd.NoEventLost` | internal/collect/scan.go:129-245 | In every run with crashes, failed saves, a full outbox and lost, repeated or reordered messages, each in-window event of a committed prefix is queued or was applied at the hub, with no premise on identities; where the logs' ids name generations, an applied event is counted |
| `EndToEnd.ExactlyOnceWhenDrained` | internal/store/store.go:457-804 | Once the outbox is empty and no pass is unfinished, the hub's rows are exactly the earliest copy of each generation found in the committed prefixes or sent by other devices; a keyless id may be logged at several times |
| `EndToEnd.DrainedHubEqualsLogs` | internal/store/store.go:670-709 | The drained hub's ids equal those of the committed prefixes and the other devices if and only if no two of them are copies of one generation |
| `HubRows.RowsSayWhatWasLogged` | internal/store/store.go:463-488 | In every run, at any moment, each hub row's counts, model and time are what one line of some file says that has been read, or one event of another device; no premise on identities |
| `HubRows.DrainedRowsSayWhatIsCommitted` | internal/collect/scan.go:129-245 | Once the outbox is empty and no pass is unfinished that line is in a committed prefix |
| `HubRows.RowsBelongToTheirSender` | internal/store/ingestv2.go:46-112 | Each hub row is filed, as reported by itself, under a device that sent an event with its id |
| `HubRows.RowsLeaveNothingOut` | internal/store/store.go:522-558 | Where ids name generations a row has taken in every event with its id that ever arrived |
| `EndToEnd.KeylessHubEqualsLogs` | internal/collect/scan.go:129-245 | Where no source writes dedup keys that equality holds with no premise on ids and times, although one generation may be logged on many lines |
| `EndToEnd.ChunkIsSentIff` | internal/agent/agent.go:546-631 | An attempt gets past its chunk exactly when every event fits an envelope alone and the outbox takes the envelopes; otherwise it is abandoned with nothing changed |
| `EndToEnd.PassesAreNeverWedged` | internal/collect/scan.go:171-183 | In every run an interrupted pass resumes over its recorded range and carry: the "parser consumed" refusal is unreachable, and every ledger key names accepted events |
| `PipelineProgress.InterruptedPassCanFinish` | internal/collect/scan.go:171-245 | From every reachable state some run finishes a recorded pass with everything it covers applied at the hub, as soon as its chunks can be sent at all, whatever was lost and however full the outbox is |
| `PipelineProgress.AppendedBytesCanBeRead` | internal/collect/scan.go:129-245 | Likewise every whole line appended to a file can be read, sent and applied |
| `EndToEnd.RunInv` | internal/collect/scan.go:129-245 | Every reachable state of the whole system keeps the invariant from which the end-to-end theorems follow |
| `EndToEnd.RunFaithful` | internal/collect/scan.go:129-245 | If the final logs and the other devices' batches agree with an identity, so does all the device has read, queued or sent at every point of the run |
| `PipelineIdentity.FaithKeeps` | internal/agent/agent.go:546-631 | Each step, relabelling and chunking included, keeps what the device holds in agreement with its inputs |
| `PipelineSteps.StepKeeps` | internal/collect/scan.go:156-245 | Each of the nine kinds of step, under any failure, keeps the end-to-end invariant |
| `PipelineSteps.ResumeIsNeverRefused` | internal/collect/scan.go:156-189 | A resumed pass reads the interrupted range again and yields the same in-window ids, whatever repositories and carry it is given |
| `PipelineSteps.NewPassBounds` | internal/collect/scan.go:156-177 | The bounds recorded for a new pass are whole lines and contain everything committed before |
| `Delivery.ReceiptsAreContiguous` | internal/store/ingestv2.go:46-112 | In every run one device's receipts are exactly sequences 1 to k, k being the number released or one more, each payload applied once and in order |
| `Delivery.NothingAcceptedIsLost` | internal/agent/outbox.go:285-317 | Every batch ever accepted by the outbox is still queued or was applied at the hub |
| `Delivery.HeadIsNeverWedged` | internal/agent/agent.go:647-693 | Whatever was lost, re-sending the head succeeds and its answer, new or replayed, is the one that releases it |
| `Delivery.EveryRunCanBeDrained` | internal/agent/agent.go:633-693 | Every run can be continued until nothing is queued and everything ever accepted has been applied, once and in order |
| `Delivery.StepKeepsInv` | internal/agent/agent.go:633-693 | Produce, send, deliver, receive and other devices' requests keep the protocol invariant, with message loss, duplication and reordering |
| `Delivery.RunInv` | internal/agent/agent.go:633-693 | The protocol invariant holds after every run |
| `Agents.ReachableIsUploadable` | internal/agent/agent.go:633-693 | Every reachable protocol state meets what the upload methods need |
| `Agents.UploadOldest` | internal/agent/agent.go:647-693 | One attempt releases exactly the head when the link completes and the deletion commits, and otherwise changes no queue; a released head holds a receipt |
| `Agents.DrainOutbox` | internal/agent/agent.go:633-645 | A drain removes a prefix of the queue, one upload per batch, stops early only at a failed attempt, and empties the queue over a link that completes |
| `Agents.EnqueueEvents` | internal/agent/agent.go:546-569 | All chunks of a delivery are queued in one transaction or none is, and together they carry the first-wins collapsed delivery |
| `Agents.PartitionedChunksEncode` | internal/agent/agent.go:584-631 | Chunks of an in-limit delivery of the enrolled device pass the validator and the size limit whatever sequence they are given |
| `Agents.RetryBackoff.NextCap` | internal/agent/agent.go:713-727 | The jitter ceiling of attempt n is the base doubled n times, clamped to the maximum |
| `Agents.CeilingDoubles` | internal/agent/agent.go:713-727 | The ceilings start at the base, double, and never pass the maximum |
| `Batching.CollapseRepeatedEventIDs` | internal/agent/agent.go:571-582 | The loop over the seen set computes the first-wins collapse |
| `Batching.CollapseIsFirstWins` | internal/agent/agent.go:571-582 | Collapsing keeps, in order, exactly the first event of each id and loses no id |
| `Batching.SequenceNeverGrows` | internal/agent/agent.go:584-617 | An envelope sized with the widest sequence fits with any sequence assigned later |
| `Batching.PartitionSound` | internal/agent/agent.go:584-617 | The chunks concatenate to the input, are non-empty for non-empty input, fit the byte limit and carry increasing stamps |
| `Batching.OneEnvelopeWhenItFits` | internal/agent/agent.go:584-617 | A delivery is sent as one envelope exactly when that fits the byte limit with the widest sequence |
| `Batching.PartitionFailsIffOversized` | internal/agent/agent.go:584-617 | With uniform stamps partitioning fails exactly when some event is too large alone |
| `Batching.OversizedEventFailsAll` | internal/agent/agent.go:597-601 | An event that never fits alone fails the whole call wherever it stands |
| `Batching.ChunksWellFormed` | internal/model/ingest.go:111-196 | All chunks of a delivery pass the hub's validator exactly when every event has an id and names the enrolled device |
| `Batching.ChunksDistinct` | internal/agent/agent.go:619-631 | Distinct batch ids drawn give distinct chunks |
| `Outboxes.EnqueueAcceptsIff` | internal/agent/outbox.go:162-223 | A multi-chunk call is accepted exactly when sequences remain, every numbered envelope is valid and small enough, the total fits and no batch id repeats |
| `Outboxes.EnqueueKeepsValid` | internal/agent/outbox.go:162-223 | Accepted rows are the contiguous run ending at last_sequence, within maxBytes, appended whole |
| `Outboxes.AcknowledgeKeepsValid` | internal/agent/outbox.go:285-317 | Releasing the head keeps the queue contiguous and within capacity |
| `Outboxes.AcknowledgeIff` | internal/agent/outbox.go:285-317 | The head is released exactly by an acknowledgement of its version, device, batch and sequence |
| `Outboxes.Outbox.Open` | internal/agent/outbox.go:46-68 | A new outbox is empty and valid, and a non-positive limit means the default |
| `Outboxes.Outbox.EnqueueManyNext` | internal/agent/outbox.go:162-223 | The transaction either performs the whole specified enqueue or leaves rows and last_sequence untouched |
| `Outboxes.Outbox.NumberAll` | internal/agent/outbox.go:178-204 | The numbering loop returns the first envelope's error, or all encoded rows with their total size |
| `Outboxes.Outbox.InsertAll` | internal/agent/outbox.go:260-268 | Inserting succeeds exactly when no batch id repeats in the table or the call |
| `Outboxes.Outbox.EncodeOutboxEnvelope` | internal/agent/outbox.go:225-237 | The size is returned exactly for valid envelopes within the byte limit |
| `Outboxes.Outbox.PeekBatch` | internal/agent/outbox.go:270-283 | The oldest queued envelope, or the empty error |
| `Outboxes.Outbox.AcknowledgeOldest` | internal/agent/outbox.go:285-317 | Only an acknowledgement matching the head on all four fields deletes it; every failure leaves the queue as it was |
| `Hubs.HubStore.ApplyIngestV2` | internal/store/ingestv2.go:39-112 | Payload and receipt are committed together or nothing is; replays answer from the receipt |
| `Hubs.ReplayIsIdentical` | internal/store/ingestv2.go:46-66 | Re-sending a batch any number of times returns the first acknowledgement and touches no table |
| `Hubs.WellFormedIsApplied` | internal/store/ingestv2.go:39-112 | A valid envelope is refused only over another device's receipt |
| `Hubs.QuotasInsertIfAbsent` | internal/store/ingestv2.go:146-176 | A stored quota row is never overwritten, every key ends present and the count is that of the new keys |
| `Hubs.QuotaRowsWereSent` | internal/store/ingestv2.go:146-176 | Under a new key the first snapshot sent is what is stored |
| `Hubs.AckSaysWhatHappened` | internal/store/ingestv2.go:46-112 | A first acknowledgement names its envelope, its two counts add up to what was sent and count what was new, only the payload's own table changes, and without a mutation no event row does |
| `Hubs.HubStore.InsertQuotaRows` | internal/store/ingestv2.go:146-176 | The insert loop computes the specified table and count |
| `Hubs.HubStore.ApplyPayloadTx` | internal/store/ingestv2.go:68-100 | Each payload kind changes only its own tables, with the counts of the acknowledgement |
| `EventTables.EventTable.InsertEvents` | internal/store/store.go:457-804 | The batch loop with its one pre-load and all its gates computes the specified table and tally |
| `EventTables.EventTable.ApplyOne` | internal/store/store.go:648-802 | One iteration: insert, fork decision, drop of the copy or gated fills |
| `EventTables.EventTable.UpdateColumns` | internal/store/store.go:721-798 | The gated updates in source order equal the one-step merge |
| `EventTables.PreloadCovers` | internal/store/store.go:396-447 | Pre-loading only the batch's ids decides every gate as pre-loading the whole table would |
| `EventOrigins.StoredValuesWereDelivered` | internal/store/store.go:463-488 | Over every history each column of a stored row is one that some delivered event with its id carried, and its counts, model and time come from one and the same event |
| `EventOrigins.OneSightingIsStoredWhole` | internal/store/store.go:463-488 | An id delivered as one event only is stored as that event, column by column |
| `EventOrigins.EverySightingIsTakenIn` | internal/store/store.go:522-558 | Where ids name generations, a column stays empty, a label weak or a source unpromoted only if no delivered event with the id could change it |
| `EventTallies.BatchTally` | internal/store/store.go:694-711 | The table gains a row for each insertion counted and loses one for each duplicate counted |
| `EventTallies.QuietBatchChangesNothing` | internal/store/store.go:351-358 | A batch that reports no mutation left the table as it was |
| `EventTallies.KeylessBatchInserts` | internal/store/store.go:538-540 | Without dedup keys the inserted count is that of the ids not stored before |
| `FastPaths.FastPathExactlyWhen` | internal/store/store.go:714-720 | For every table and batch, the pre-loaded form equals the plain one after every event exactly when each event meets a guard on its pre-loaded row and the table as it stands; then the whole batch and every counter agree |
| `FastPaths.StepAgreesIff` | internal/store/store.go:660-800 | One event is handled alike with and without its pre-loaded row exactly when the guard holds |
| `FastPaths.MergeAgreesIff` | internal/store/store.go:721-798 | Gating leaves a merge as it is exactly when every update the stored row calls for is one the pre-loaded row called for |
| `FastPaths.KeylessFastPath` | internal/store/store.go:714-720 | For events without dedup keys the two forms agree on any table, whatever their ids and times |
| `EventHistory.FastPathRefinesPlain` | internal/store/store.go:714-720 | Skipping probes on pre-loaded evidence changes neither the table nor a counter where ids fix their dedup key and keyed ids their time |
| `FastPaths.FastPathNeedsStableKeys` | internal/store/store.go:670-675 | A concrete batch on which the pre-load changes the result when an id is re-sent without its key |
| `EventHistory.ReplayIsNoOp` | internal/store/store.go:538-540 | Re-sending a whole batch inserts, fills and mutates nothing |
| `EventHistory.StoredAreSurvivors` | internal/store/store.go:670-709 | For every history of deliveries the stored ids are exactly the earliest copies of the generations seen |
| `EventHistory.ArrivalOrderIrrelevant` | internal/store/store.go:684-688 | Which ids survive does not depend on arrival order or batching |
| `EventHistory.CountsArePermanent` | internal/store/store.go:528-533 | Over any history a stored row keeps its counts for ever, or an earlier copy holds its generation |
| `EventStore.ApplyIndexed` | internal/store/store.go:449-453 | Every statement leaves at most one row per dedup key |
| `EventRows.GatesAreNoOps` | internal/store/store.go:714-720 | A closed gate is a proof that its update would have changed nothing, however stale the pre-loaded row |
| `EventRows.MergedStaysAbsorbed` | internal/store/store.go:538-540 | An observation with nothing left to add stays so whatever else is observed |
| `EventRows.ProviderOrderIndependence` | internal/model/provider.go:120-124 | The column settles on one value in every order exactly when one label is decisive; the comment's unconditional claim is false |
| `EventRows.DisagreeingOrders` | internal/model/provider.go:137-142 | Two orders of the same labels that settle differently whenever none is decisive |
| `EventRows.SettledRankIsMaximal` | internal/store/store.go:624-642 | Whatever the order, the column ends at the greatest rank among the labels |
| `Ingest.ValidateIngestEnvelope` | internal/model/ingest.go:111-196 | The validator's loop with its seen map returns the positional rejection list |
| `Ingest.AcceptedIffWellFormed` | internal/model/ingest.go:111-196 | An envelope has no rejection exactly when header, payload kind and every record are well formed, with distinct event ids |
| `Ingest.ValidUUID` | internal/model/ingest.go:202-220 | Exactly the lower-case text form of section 4 of RFC 9562 |
| `Ingest.UUIDIff` | internal/model/ingest.go:202-220 | The text form is thirty-six characters with hyphens at four places, lower-case hexadecimal digits elsewhere, not all of them zero |
| `Procs.LiveTables.Apply` | internal/store/procs.go:70-133 | The transaction computes the specified tables and changed flag |
| `Procs.ReportSays` | internal/store/procs.go:70-133 | After an accepted report each listed process is stored with the source and start its last listing gives |
| `Procs.RefusedChangesNothing` | internal/store/procs.go:70-90 | A report without device or time, or older than the last, changes nothing |
| `Procs.SnapshotIff` | internal/store/procs.go:76-131 | After an accepted report the device's rows are exactly its listing if and only if every other stored row was observed strictly earlier |
| `Procs.SameInstantKeepsBoth` | internal/store/procs.go:55-58 | Two accepted reports of one device at one instant leave the processes of both; the second is a snapshot exactly if it lists every process of the first |
| `Procs.ChangedIffPidSetDiffers` | internal/store/ingestv2.go:178-245 | For distinct pids the flag is raised exactly when the pid set changed |
| `Procs.NewestWins` | internal/store/ingestv2.go:178-245 | Reports in any order with any repetition leave exactly the newest one's rows |
| `Procs.OthersUntouched` | internal/store/procs.go:70-133 | No report touches another device's rows |
| `Cursors.LoadInvertsSave` | internal/collect/state.go:47-87 | Loading returns the saved cursor exactly when it is well kept, and always yields a well-kept one |
| `Cursors.MutatorsKeepWellKept` | internal/collect/state.go:169-294 | Every mutator keeps the cursor loadable |
| `Cursors.CommitIsReadBack` | internal/collect/state.go:252-296 | After a commit the offset, a positive carry and the chunk keys read back are the pass's |
| `Cursors.BeginKeepsAnUnfinishedPass` | internal/collect/state.go:169-187 | A recorded pass keeps its bounds, carry and ledger; a new one starts with an empty ledger |
| `Cursors.MarksAreFound` | internal/collect/state.go:189-250 | A mark is found again and only it is new; forgetting a pass forgets its marks and chunk keys |
| `Cursors.State.BeginScan` | internal/collect/state.go:169-187 | Memory and disk record the pass together or both keep their previous value |
| `Cursors.State.MarkDeliveryDone` | internal/collect/state.go:195-221 | A key is recorded in memory and on disk together or in neither |
| `Cursors.State.DiscardScan` | internal/collect/state.go:223-250 | Ledger and chunk keys are forgotten together or restored together |
| `Cursors.State.Commit` | internal/collect/state.go:252-294 | Offset, carry, ledger and chunk keys advance together or all roll back |
| `Cursors.State.ResetOffsets` | internal/collect/state.go:119-133 | All offsets are forgotten or, if the save fails, all are kept |
| `Scans.DropBeforeInPlace` | internal/collect/scan.go:96-108 | The in-place filter leaves the kept events, in order, at the front of the same storage |
| `Scans.DropBeforeKeeps` | internal/collect/scan.go:96-108 | Exactly the events at or after the cutoff are kept |
| `Scans.RedeliveryBound` | internal/collect/scan.go:190-223 | After a committed full pass the next one over appended events skips exactly the old full chunks, so fewer than 2000 old events are sent again |
| `Scans.AppendOnlyNeverDiscards` | internal/collect/scan.go:134-151 | A file that only grows never loses its ledger, and an interrupted pass resumes its range |
| `Scans.ResumeReadsSameBytes` | internal/collect/scan.go:156-171 | However much the file grew, a resumed pass reads the same bytes |
| `Scans.ScanFile` | internal/collect/scan.go:129-245 | Whatever fails, other files' records stay, every content key is backed, and the offset moves only after every chunk and the quotas were accepted; a rewritten, replaced or grown file is read from its first byte, from the boundary the source says, or from the committed offset, and every event of the window is sent in order |
| `Scans.RewrittenStartsOver` | internal/collect/scan.go:135-142 | A file shorter than its committed offset is read whole with its ledger and chunk keys forgotten |
| `Scans.ReplacedStartsOver` | internal/collect/scan.go:144-152 | A file shorter than an unfinished pass recorded is read again from the offset, or whole, with its ledger and chunk keys forgotten |
| `Scans.RunPass` | internal/collect/scan.go:171-245 | A failed pass leaves the committed offset and carry as they were and is resumable |
| `Scans.DeliverOne` | internal/collect/scan.go:199-223 | A chunk is passed over exactly on a matching key, and then an identical batch had been accepted; otherwise it is sent and marked |
| `LineParsers.LineParserIsGood` | internal/parser/claudecode/parser.go:56-98 | Every newline-delimited parser, whatever ids and times its lines carry, meets everything the pipeline assumes of a parser |
| `LineParsers.FaithfulLinesSuffice` | internal/parser/claudecode/parser.go:56-98 | The identity premise on a log comes down to the lines of that one log |
| `LineParsers.KeylessFormatsAreFaithful` | internal/parser/claudecode/parser.go:182-200 | A format without dedup keys meets the identity premise for every log |
| `LineParsers.RepeatedIdIsFaithful` | internal/parser/claudecode/parser.go:252-257 | A log showing one id at two times is within the end-to-end theorems |
| `LineParsers.KeylessAgentCountsOnce` | internal/agent/agent.go:559-569 | An agent that reads only such formats: in every run the drained hub holds each id of its committed logs and of the other devices once |
| `LineParsers.LineSetupsAreGood` | internal/collect/scan.go:56-77 | An agent whose sources are all newline-delimited formats is a setup of the end-to-end theorems |
| `LineParsers.CarryComposes` | internal/parser/claudecode/parser.go:56-98 | Scanning in pieces carries the turn start as one scan of the whole would |
| `LineParsers.CarryNeverLost` | internal/parser/claudecode/parser.go:56-98 | A positive carry stays positive, so leaving a zero carry unsaved loses nothing |
| `RespCaches.NothingStaleAfterClear` | internal/server/respcache.go:52-96 | In every interleaving a request entering after a clear is answered by a compute begun after it, from prices no older |
| `RespCaches.HitsAreFreshSuccesses` | internal/server/respcache.go:61-66 | A hit is a success younger than its time to live |
| `RespCaches.FailuresAreNotCached` | internal/server/respcache.go:74-80 | A failure reaches only its caller and those already waiting when it was published |
| `RespCaches.SharersAgree` | internal/server/respcache.go:48-88 | All who are answered from one compute get the same result |
| `RespCaches.AnswersAreWhatWasComputed` | internal/server/respcache.go:52-88 | In every interleaving each answer is exactly what one compute returned, and that compute was for the key asked for |
| `RespCaches.AnswersAreNeverOutlived` | internal/server/respcache.go:61-64 | In the run's own terms: no clear lies between the lookup that began the compute and the request answered, and a hit is younger than the time to live that lookup asked for |
| `RespCaches.LookupUsesTheCache` | internal/server/respcache.go:52-69 | A lookup joins a compute in flight, takes a success still fresh, and computes only otherwise |
| `RespCaches.NobodyIsStuck` | internal/server/respcache.go:52-88 | In every interleaving a thread that computes can publish, one that has published can close, and one that waits can wake or waits for one of these |
| `RespCaches.OneComputePerKey` | internal/server/respcache.go:52-72 | At most one compute runs per key and generation |
| `RespCaches.StepKeeps` | internal/server/respcache.go:52-96 | Lookup, publish, close, wake, clear, price change and time keep the cache invariant |
| `DeviceMerges.Database.MergeDeviceIdentity` | internal/store/devicemerge.go:202-290 | A merge whose plan was made is carried out whole, its abort branch and its primary key never stop it; any refusal changes nothing |
| `Fleets.MergeTells` | internal/store/devicemerge.go:278-285 | A merge appends one record with its source, target, actor and time, following it is what became of every event, and its counts are the rows that moved and went |
| `Fleets.TheLogIsWhatRan` | internal/store/devicemerge.go:278-285 | Whatever merges are requested and refused, what the stored log gained is what was done to every event since |
| `Fleets.StoredAliasesAreRight` | internal/server/fleetdevices.go:17-25 | From an empty log the alias map built from the stored log names the device that now holds the source's events |
| `DeviceMerges.PlanIsWhatRuns` | internal/store/devicemerge.go:252-264 | The statements touch exactly the planned row counts and meet no taken key |
| `DeviceMerges.MergedIff` | internal/store/devicemerge.go:106-156 | A merge is refused only for a missing or equal name, a name with nothing filed under it, or an unreadable setting |
| `DeviceMerges.EventsOnlyChangeDevice` | internal/store/devicemerge.go:242-254 | No event is lost and only its device column can change |
| `DeviceMerges.StatsAddUp` | internal/store/devicemerge.go:171-195 | The target's events, tokens, first and last instants and quota rows are both devices' put together |
| `DeviceMerges.TargetWinsCollisions` | internal/store/devicemerge.go:216-229 | A reading is under the target afterwards exactly when it was there, or was the source's and its slot was free |
| `DeviceMerges.TargetSlotsAreTheUnion` | internal/store/devicemerge.go:216-231 | The target's quota keys are the union of both key sets |
| `DeviceMerges.MoveKeepsKeys` | internal/store/devicemerge.go:211-231 | Deleting the collisions first keeps the quota primary key unique through the move |
| `DeviceMerges.BystandersUntouched` | internal/store/devicemerge.go:216-254 | A device that takes no part keeps its rows in every table |
| `DeviceMerges.LabelFollowsUnlessTaken` | internal/store/devicemerge.go:295-309 | The display name moves only to a target without one and the source's name is gone |
| `DeviceMerges.MergedAwayIsUnknown` | internal/store/devicemerge.go:158-169 | Nothing remains under the source, so merging it again is refused as unknown |
| `Fleets.BuildAliases` | internal/server/fleetdevices.go:17-25 | For every log, cycles and re-used names included, each alias is the replay of the log from its source's latest merge |
| `Fleets.AliasHoldsTheMovedEvents` | internal/server/fleetdevices.go:17-25 | The alias names the device that now holds the events its source held at that merge |
| `Fleets.FollowIsWhatMergesDid` | internal/store/devicemerge.go:242-254 | Following the log is what the executed merges did to each stored event |
| `Fleets.FleetDevices` | internal/server/fleetdevices.go:26-38 | The list omits exactly the revoked records whose alias is another present device |
| `Fleets.OmittedIff` | internal/server/fleetdevices.go:26-37 | A device is omitted exactly when it is revoked and the log leads from it to another device of the registry |
| `Fleets.RepresentedIffSettled` | internal/server/fleetdevices.go:7-9 | Every omitted device's alias is itself listed, for every registry, exactly when no alias points at a name aliased elsewhere |
| `Fleets.NotReusedIsSettled` | internal/server/fleetdevices.go:17-25 | Logs that never merge into a retired name are of that kind |
| `Fleets.ReusedNameHidesItsTarget` | internal/server/fleetdevices.go:33-36 | A two-merge log and a registry in which an omitted device's alias is omitted too |
| `Spans.MergeSpans` | internal/store/worktime.go:54-69 | Ordered, strictly separated spans covering exactly the instants of the input |
| `Spans.CanonicalIsUnique` | internal/store/worktime.go:54-69 | Two such lists over the same instants are equal, so the result does not depend on input order |
| `Spans.UnionMS` | internal/store/worktime.go:72-78 | The total is the measure of the union: each covered millisecond cell once |
| `Spans.SumMS` | internal/store/worktime.go:80-86 | The total is the spans' lengths added up |
| `Spans.SumIsUnionIffNoOverlap` | internal/store/worktime.go:10-17 | Sum equals union exactly when no two spans share time |
| `Spans.BridgeSpans` | internal/store/worktime.go:36-49 | The loop computes the fold of one event at a time |
| `Spans.BridgedIsApart` | internal/store/worktime.go:36-49 | Bridged spans are more than the idle time apart and the last ends with the last event |
| `Spans.BridgingKeepsEveryEvent` | internal/store/worktime.go:36-49 | The instant of every event lies in a bridged span |
| `Spans.IntervalsCoveredIff` | internal/store/worktime.go:40-43 | Every event's whole interval is covered exactly when no event starts before the first event of its idle-connected run, a condition on the events alone |
| `Spans.LongEventReachesBack` | internal/store/worktime.go:40-43 | Two events in query order of which one interval is not covered whole |
| `Spans.OrderedStartsAreCovered` | internal/store/worktime.go:36-49 | Where events also start in order every whole interval is covered |
| `WorkTimes.WorkTime` | internal/store/worktime.go:89-156 | Per repository: the measure of the union, the summed sessions and their number; per device and repository: the measure of its union |
| `WorkTimes.Accumulate` | internal/store/worktime.go:103-136 | The grouping loop and its flush leave the four maps of the rows' runs |
| `WorkTimes.SessionsAreBridgedWhole` | internal/store/worktime.go:90-95 | In query order each session is one run holding all its events |
| `WorkTimes.CellsOfRuns` | internal/store/worktime.go:103-136 | A moment counts for a repository, or a device in it, exactly when one of its sessions was active then |
| `WorkTimes.SessionsAreCounted` | internal/store/worktime.go:103-136 | The session number is that of the distinct sessions among the rows, and every repository among them is listed |
| `WorkTimes.SumIsActivePerSession` | internal/store/worktime.go:10-17 | The sum counts each session's own active time once: sessions overlap each other, never themselves |
| `WorkTimes.UnionBetweenDeviceAndSum` | internal/store/worktime.go:10-17 | Device union at most repository union at most session sum, in milliseconds and in whole seconds |
| `LiveSpeeds.LiveSpeedSince` | internal/store/livespeed.go:86-202 | Aggregate, sessions and three breakdowns are those of the clipped entries |
| `LiveSpeeds.SharesAreProper` | internal/store/livespeed.go:136-150 | Each share lies in the window, between zero and its event's output, whole when the generation began inside; the end is never cut |
| `LiveSpeeds.SharesAreEven` | internal/store/livespeed.go:147 | Each share is the output spread evenly over its generation, for the part inside the window, rounded down |
| `LiveSpeeds.EntriesAreTheRowsThatCount` | internal/store/livespeed.go:98-146 | The window counts exactly the measured rows of the device that share time with it, each as often as it is stored |
| `LiveSpeeds.ReportReconciles` | internal/store/livespeed.go:39-42 | The sources, devices, models and sessions each add up to the window's tokens, and the contributions of each of the four to the aggregate rate |
| `LiveSpeeds.BreakdownReconciles` | internal/store/livespeed.go:223-246 | One breakdown's tokens and contributions add up exactly |
| `LiveSpeeds.NativeAtLeastContribution` | internal/store/livespeed.go:11-19 | Group active time at most fleet active time at most window length, so a native rate is never below its contribution |
| `LiveSpeeds.BuildSpeedContributions` | internal/store/livespeed.go:223-246 | Each key once, ordered by contribution then key, with its own group's figures |
| `LiveSpeeds.LatestIsTheLast` | internal/store/livespeed.go:160-164 | The model shown is that of the latest event, the later one winning a tie |
| `LiveSpeeds.SortSessionsByTokens` | internal/store/livespeed.go:256-262 | The in-place sort leaves the specified order |
| `LiveSpeeds.SortIsPermutation` | internal/store/livespeed.go:256-262 | That order is by falling tokens and keeps exactly the sessions given |
| `LiveSpeeds.SortIsStable` | internal/store/livespeed.go:256-262 | Sessions with equal tokens keep their order |
| `Blocks.IdentifyBlocks` | internal/store/blocks.go:39-60 | The loop computes the fold of entries into blocks, the last one marked if active |
| `Blocks.PiecesAreTheEntries` | internal/store/blocks.go:39-60 | Whatever the entries, the blocks cut them into consecutive pieces and lose none |
| `Blocks.BlocksAreTheirPieces` | internal/store/blocks.go:39-60 | Each block is opened by the first entry of its piece and charged with exactly that piece |
| `Blocks.BlockSaysItsEntries` | internal/store/blocks.go:29-60 | A block's hour, window, latest entry and sums are those of its piece |
| `Blocks.BlocksBreakWhereTheyMust` | internal/store/blocks.go:40-46 | Inside a piece each entry comes within the duration of the start and of the entry before, and the first of the next piece does not |
| `Blocks.FiguresConserved` | internal/store/blocks.go:52-55 | Tokens, output tokens and events are conserved |
| `Blocks.EntriesLieInTheirBlocks` | internal/store/blocks.go:43-49 | Every entry lies within its block's window |
| `Blocks.BlocksNeverOverlap` | internal/store/blocks.go:33-49 | Rounding down to the hour never makes a block overlap the one before |
| `Blocks.IdleGapIsImplied` | internal/store/blocks.go:43-45 | The gap since the last entry never closes a block on its own |
| `Blocks.OnlyTheLastIsActive` | internal/store/blocks.go:57-59 | Exactly the last block can be active, under the source's condition |
| `Blocks.FloorIsDownwardIff` | internal/store/blocks.go:33-36 | Rounding is downward exactly for instants after 1970 and hour marks |
| `Capacities.WindowKeepsItsPeak` | internal/store/capacity.go:80-107 | After any readings a window stores the highest percentage and the tokens of the first reading to reach it |
| `Capacities.Calibration.ObserveCapacityFromQuota` | internal/store/capacity.go:125-150 | The early exit never changes what is stored |
| `Capacities.Calibration.ObserveCapacity` | internal/store/capacity.go:92-107 | Only a usable reading with a higher percentage replaces a sample |
| `Capacities.Calibration.BackfillCapacity` | internal/store/capacity.go:307-361 | Each window contributes its ranked row in whatever order rows come, unless its events have aged out |
| `Capacities.BackfillTwice` | internal/store/capacity.go:305-306 | Backfilling again over unchanged data changes nothing |
| `Capacities.ObservingAgainIsNoOp` | internal/store/capacity.go:84-87 | Observing readings again in any order changes nothing |
| `Capacities.BackfillIsTheLiveCalibrationIff` | internal/store/capacity.go:297-306 | Whatever traffic each snapshot saw on arrival, the backfill leaves a window's live figures exactly when its ranked row calibrates as some arrival did and the first arrival at the peak says the same |
| `Capacities.BackfillIsTheLiveCalibration` | internal/store/capacity.go:297-306 | Where events and snapshots arrive in time order, the live sample of every window whose ranked row still has its traffic is rebuilt |
| `Capacities.CapacityEstimate` | internal/store/capacity.go:214-232 | No answer below three usable samples, otherwise the lower quartile by rank |
| `Capacities.EstimateBetweenPriorAndLive` | internal/store/capacity.go:277-295 | With a prior and a usable reading the answer lies between the two up to truncation |
| `Capacities.WeightGrows` | internal/store/capacity.go:291-294 | The live weight rises strictly with the percentage and stays between zero and one |
| `Capacities.CloserToLive` | internal/store/capacity.go:291-294 | A higher percentage brings the blend strictly nearer the live reading |
| `Capacities.AnswersIff` | internal/store/capacity.go:277-290 | There is an answer exactly with a prior, or with tokens at ten percent or more |
| `Capacities.CapacityIsScaled` | internal/store/capacity.go:73-79 | A sample implies its tokens scaled to the whole window, rounded down |
| `Capacities.BestIsTheEarliestPeak` | internal/store/capacity.go:308-317 | Each window's ranked row has its highest percentage and is the earliest to have it |
| `Capacities.TrafficIsTheWindows` | internal/store/capacity.go:344-372 | A snapshot's traffic counts an event exactly if it is subscription traffic of its source within its window |
| `Capacities.LiveAloneIsScaled` | internal/store/capacity.go:277-290 | Without a prior a window at ten percent or more is scaled likewise and one below has no answer |
| `Capacities.EstimateIsWeighted` | internal/store/capacity.go:291-295 | With both, the answer is their mean with weights percent squared and (0.5/0.26) squared, rounded down |
| `Proxies.UsageObserver.Feed` | internal/proxy/proxy.go:417-435 | A chunk of a stream does exactly what its bytes do one at a time; a body chunk is captured whole or not at all |
| `Proxies.ChunkingIsInvisible` | internal/proxy/proxy.go:417-435 | However a stream is cut into chunks the observer ends in the same state |
| `Proxies.OnlyWholeLinesCount` | internal/proxy/proxy.go:400-403 | Only the line in progress is buffered, and a stream ending inside a line leaves it unread |
| `Proxies.UsageObserver.SseLine` | internal/proxy/proxy.go:438-475 | One line's effect on usage, model and message id |
| `Proxies.UsageObserver.GetResult` | internal/proxy/proxy.go:513-532 | The answer of a stream is what its lines said; a captured body is decoded and merged once |
| `Proxies.CapturedWholeIff` | internal/proxy/proxy.go:418-422 | A body is captured whole exactly when each non-empty chunk starts before the cap |
| `Proxies.CaptureIgnoresChunkingIff` | internal/proxy/proxy.go:418-422 | The captured bytes are independent of chunking exactly for bodies no longer than the cap |
| `Proxies.PromptIsSplit` | internal/proxy/proxy.go:476-500 | An OpenAI usage's input and cache reads add up to its prompt, its completion is the output, and cache creation stays |
| `Proxies.LastPositiveWins` | internal/proxy/proxy.go:476-514 | In the Anthropic dialect each component ends as the last positive value sent |
| `Proxies.EventSays` | internal/proxy/proxy.go:445-474 | A payload's usages are merged in order and its names replace older ones unless empty |
| `Proxies.LineSays` | internal/proxy/proxy.go:436-474 | A data line says exactly what its payload decodes to, whatever white space surrounds it |
| `Proxies.StreamIsItsLines` | internal/proxy/proxy.go:398-442 | A stream of lines is read line by line, in order, each once |
| `Proxies.BodySays` | internal/proxy/proxy.go:516-533 | A captured body says what it decodes to and a stream's buffer nothing more |
| `Proxies.ProxyEmitter.Emit` | internal/proxy/proxy.go:546-560 | The batch is the newest thousand of buffer and event; success empties the ring, failure keeps it |
| `Proxies.RingHoldsTheRecent` | internal/proxy/proxy.go:536-560 | The ring is always the newest thousand at most of the events since the last success, in order |
| `Proxies.BatchIsWhatIsSent` | internal/proxy/proxy.go:546-560 | The batch handed to the sink is exactly the events of the calls the delivery theorems name, in order |
| `Proxies.DeliveredIff` | internal/proxy/proxy.go:536-560 | An event reaches the sink exactly when its own call or one of the next 999 succeeds |
| `Proxies.LostIff` | internal/proxy/proxy.go:536-560 | It is lost exactly when those all fail and yet another event comes |
| `Proxies.DeliveredOnce` | internal/proxy/proxy.go:536-560 | It is taken at most once |

## Left out

- Delivery, Pipeline and RespCache as concurrent objects: they are step systems over values; each step is one critical section or transaction.
- HTTP, TLS, credentials, relay forwarding, enrolment, heartbeats and the unbounded daemon loops.
- The plain `Enqueue` with its caller-chosen sequence and `Stats`: production enqueues only through `EnqueueNext` and `EnqueueManyNext`; `EnqueueNext` is the one-envelope case.
- `ResetOffsets` and truncated or replaced files in end-to-end runs: `Scans.ScanFile` and `Cursors.State.ResetOffsets` cover them one call at a time; the end-to-end theorems are about files that only grow.
- Quota snapshots in end-to-end runs: they travel as batches of another kind, and no end-to-end theorem speaks of their contents.
- The `received_at` and `account_label` columns, migrations and read queries over the event table.
- Durations measured from the previous log line: they depend on where a scan was cut, unlike ids and counts, and no theorem speaks of them.
- The local proxy as a producer of v2 batches: it stamps a display name where the validator wants the device id.
- A compute that panics inside the response cache, and requests served with no cache configured.
- The two implementations of the process report (store and v2 hub): they run the same statements and are modelled once.
- WorkTimes.WorkTime: requires non-negative durations, as the span type's own comment does; the order of the result lists (by union, ties by map order) is not modelled.
- Spans.MergeSpans: does not model that the caller's slice is reordered by the library sort.
- LiveSpeeds.LiveSpeedSince: floating-point rounding is not modelled; contributions add up over the real numbers.
- Capacities.CapacityEstimate: starts from the samples its query returns; the query's limit and order are not modelled.
- Capacities.Calibration.BackfillCapacity: ties on both percentage and time in one window go to the first row, where the query may pick any.
- Proxies.UsageObserver.SseLine: trims the ASCII white space of a payload, not the other Unicode spaces.
- Price tables, heatmaps, reports, quota read paths, statusline and setup: aggregation and plumbing beside the core.
- `CanonicalModel` and repository URL normalisation: a canonical model name is part of the input here.
