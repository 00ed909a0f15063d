# Blobscan indexer (blob indexer for a beacon chain), modelled in Dafny

This project models the core of the blobscan indexer. The indexer follows a beacon chain and sends blocks,
transactions and blob entities to the blobscan API. The model covers these parts:

- **Beacon wire types.** `BlockId` parsing and its two printers, topic names, the decimal-string number decoder,
  and the construction of a blobs response from KZG commitments.
- **Beacon REST client.** The base URL, the request paths, the events-topic query and the unwrapping of the `data`
  envelope.
- **Slots processor** (the newer processor, with retries):
  - forward and reverse slot ranges that stop at the first failure;
  - the skip/error ladder of one slot;
  - the capped exponential backoff of every client call;
  - the assembly of blob entities.
- **Slot processor errors** and their message formats.
- **Slot processor** (the earlier one, without retries): its decision ladder, its transaction filter and its blob
  entities.
- **Synchronizer:**
  - `run`, which walks `[from, to)` in checkpoint-sized chunks and records the last slot of every chunk;
  - `_sync_slots`, which splits a chunk into worker sub-ranges and gathers the workers' errors.
- **Indexer:**
  - construction;
  - the choice of the lower and upper start blocks from the stored sync state;
  - the decision which tasks to start;
  - the counting of task completion messages;
  - the sync-state and historical backoff loops;
  - the synchronizer settings;
  - the realtime event loop: the chain-reorg parent walk, the head-event ranges, the finalized-checkpoint update and
    the stream-error retries.

How the model is written:

- Every network call is a function parameter: HTTP, the execution provider, the blobscan API and event decoding.
- Where the source retries a call, the call also takes the attempt number.
- Waits are returned as a sequence of whole seconds. Nothing waits.
- Concurrent workers and tasks run one after the other. The two indexer tasks are replaced by the sequence of
  messages they send.

Modules follow the source files:

| module | source |
|---|---|
| `BeaconTypes` | `src/clients/beacon/types.rs` |
| `Beacon` | `src/clients/beacon/mod.rs` |
| `SlotsProcessor` | `src/slots_processor/mod.rs` |
| `SlotsProcessorErrors` | `src/slots_processor/error.rs` |
| `SlotProcessor` | `src/slot_processor/mod.rs` |
| `Synchronizer` | `src/synchronizer/mod.rs` |
| `Indexer` | `src/indexer/mod.rs` |

Supporting modules:

- `Common`: Rust's `Option`/`Result`, `u32`/`u64`, `H256`, and the foreign error values.
- `Decimal`: `u32` to text and back.
- `Hex`: `H256` and `Bytes` hex text.
- `Backoff`: the 5 s / 600 s / 5000-retry loop that every source file repeats inline, defined once.
- `BlobscanEntities`: the blob-entity loop that both processors share.

## Model

| member | source | states |
|---|---|---|
| Decimal.ToDecimal | src/clients/beacon/types.rs:152 | `to_string` of a number is a non-empty run of digits without a leading zero |
| Decimal.ParseU32Accepts | src/clients/beacon/types.rs:144 | `parse::<u32>` accepts exactly an optional `+` followed by digits whose value fits in 32 bits, and yields that value |
| Decimal.ScanDigits | src/clients/beacon/types.rs:144 | on digits, the parse succeeds iff the accumulated value fits in `u32`, else reports overflow |
| Decimal.ScanNonDigits | src/clients/beacon/types.rs:144 | a string containing a non-digit never parses |
| Decimal.ValueOfToDecimal | src/clients/beacon/types.rs:152 | the digits of `n.to_string()` read back as `n` |
| Decimal.ParseToDecimal | src/clients/beacon/types.rs:152 | round trip: `n.to_string().parse::<u32>() == Ok(n)` |
| Decimal.ToDecimalInjective | src/clients/beacon/types.rs:152 | different numbers print differently |
| Hex.LowerHex | src/clients/beacon/types.rs:153 | `{:x}` of a hash is two digits per byte |
| Hex.DecodeLowerHex | src/clients/beacon/types.rs:153 | decoding the lower-hex text of bytes gives the bytes back |
| Hex.DecodeHexDigits | src/clients/beacon/types.rs:180 | text that decodes consists of hex digits only |
| Hex.ParseLowerHex | src/clients/beacon/types.rs:180-181 | `H256::from_str("0x" + {:x})` returns the hash |
| BeaconTypes.DeserializeNumber | src/clients/beacon/types.rs:138-145 | a JSON number string decodes iff it is a `u32` literal, to its value; otherwise the error is the parse error's message |
| BeaconTypes.FromStrCases | src/clients/beacon/types.rs:172-193 | "head" and "finalized" parse to their keywords. A `u32` literal parses to `Slot`, tried before hashes. A non-number with `0x` gives `Hash` iff it is 64 hex digits, else "Invalid block ID hash". Anything else is "Invalid block ID" |
| BeaconTypes.HexPrefixIsNotNumber | src/clients/beacon/types.rs:176-179 | a `0x` string never parses as a number, so it always reaches the hash branch |
| BeaconTypes.FromStrToDetailedString | src/clients/beacon/types.rs:147-193 | round trip: every block identifier, hashes included, parses back from `to_detailed_string` |
| BeaconTypes.DisplayVersusDetailedString | src/clients/beacon/types.rs:158-167 | `Display` equals `to_detailed_string` on head, finalized and slots; a hash's abbreviated display is rejected by `from_str` |
| BeaconTypes.TopicNamesDistinct | src/clients/beacon/types.rs:195-203 | the three topic names are pairwise distinct |
| BeaconTypes.CommitmentBlobs | src/clients/beacon/types.rs:235-248 | one blob per commitment, in order; blob `i` has index `i.to_string()`, that commitment, an empty proof and the commitment's bytes |
| BeaconTypes.FromCommitments | src/clients/beacon/types.rs:235-248 | the push loop builds exactly the blobs of the commitments |
| BeaconTypes.FromColumns | src/clients/beacon/types.rs:214-233 | the blobs of a columns response are those of the first column's commitments |
| Beacon.TryWithClient | src/clients/beacon/mod.rs:28-38 | the base URL is the configured base followed by `/eth/`; an unparsable one is the error "Failed to parse base URL" |
| Beacon.UnwrapData | src/clients/beacon/mod.rs:44-47 | errors pass through unchanged, `None` stays `None`, `Some(r)` becomes `Some(r.data)` |
| Beacon.TopicNames | src/clients/beacon/mod.rs:111-114 | the topics map to their names, one for one and in order |
| Beacon.BlockUrlInjective | src/clients/beacon/mod.rs:40-42 | two block requests share a URL only for the same block identifier |
| Beacon.HeaderUrlInjective | src/clients/beacon/mod.rs:70-72 | two header requests share a URL only for the same block identifier |
| Beacon.BlockAndHeaderUrlsDiffer | src/clients/beacon/mod.rs:41-71 | a block request and a header request never share a URL |
| Beacon.ValidatorUrlIndex | src/clients/beacon/mod.rs:60-62 | the validator index reads back from the end of its URL |
| Beacon.SplitJoin | src/clients/beacon/mod.rs:111-115 | splitting a comma join gives the items back when none contains a comma |
| Beacon.EventsUrlTopics | src/clients/beacon/mod.rs:110-117 | the events query lists the topic names in the order given, separated by commas: splitting it on commas gives them back; with no topics the query is empty |
| SlotsProcessorErrors.UnescapeEscape | src/slots_processor/error.rs:12-16 | the debug escaping of a string can be undone |
| SlotsProcessorErrors.CustomErrorDisplayInjective | src/slots_processor/error.rs:9-16 | two custom errors display alike only with equal messages |
| SlotsProcessorErrors.RangeTextInjective | src/slots_processor/error.rs:20-22 | the range message determines the initial, final and failed slots and the error text |
| SlotsProcessorErrors.MessageDeterminesRange | src/slots_processor/error.rs:18-28 | a `FailedSlotsProcessing` message determines its range, failed slot and the display of its slot error |
| Backoff.Schedule | src/slots_processor/mod.rs:83-103 | the waits of `n` retries: `n` of them, the `k`-th being the `k`-th delay |
| Backoff.DelayBounds | src/slots_processor/mod.rs:83-103 | every wait lies between 5 s and 600 s |
| Backoff.DelayClosedForm | src/slots_processor/mod.rs:98-102 | the `k`-th wait is `5 * 2^k` s capped at 600 s |
| Backoff.DelayMonotone | src/slots_processor/mod.rs:98-102 | waits never shrink |
| Backoff.DelaySaturates | src/slots_processor/mod.rs:98-102 | from the eighth retry on, every wait is 600 s |
| Backoff.TotalWait | src/slots_processor/mod.rs:83-103 | the total wait of `n >= 7` retries is `635 + 600 (n - 7)` s |
| Backoff.TotalDelayMonotone | src/slots_processor/mod.rs:83-103 | more retries never wait less in total |
| Backoff.MaxTotalWait | src/slots_processor/mod.rs:83-103 | a retry loop waits at most 2,996,435 s in all |
| Backoff.RetriesMadeUnique | src/slots_processor/mod.rs:95-106 | the number of retries is determined by the calls' answers |
| Backoff.RetryCountMade | src/slots_processor/mod.rs:95-106 | the counted retries are exactly those made |
| Backoff.RetryCountOutcome | src/slots_processor/mod.rs:95-106 | a loop that ends on a retryable answer has made 5000 retries, all on retryable answers |
| Backoff.ScheduleBounds | src/slots_processor/mod.rs:83-103 | every wait of a schedule lies between 5 s and 600 s |
| Backoff.Retry | src/slots_processor/mod.rs:83-107 | the loop retries while the answer asks for it and the bound is not reached; it returns the last answer and waits the schedule |
| Backoff.RetryOnError | src/slots_processor/mod.rs:146-169 | errors are retried up to 5000 times; an error is returned only after 5000 retries |
| Backoff.RetryOnNone | src/slots_processor/mod.rs:193-214 | `None` is retried up to 5000 times; an error ends the loop at once |
| BlobscanEntities.ConvertAllOk | src/slots_processor/mod.rs:177-182 | collecting succeeds iff every conversion does, and then keeps them in order |
| BlobscanEntities.RefsOf | src/slots_processor/mod.rs:244 | a transaction's versioned hashes are enumerated in order |
| BlobscanEntities.EntitiesForOk | src/slots_processor/mod.rs:243-249 | assembly succeeds iff every versioned hash has a blob, giving one entity per hash in order |
| BlobscanEntities.EntitiesForErr | src/slots_processor/mod.rs:245 | a failed assembly reports "Sidecar not found" for the first hash without a blob |
| BlobscanEntities.EntitiesForErrSticks | src/slots_processor/mod.rs:245 | once a hash is missing, later hashes do not change the error |
| BlobscanEntities.RefsAppend | src/slots_processor/mod.rs:243-244 | the visit order of a mapping is the concatenation of its entries' orders |
| BlobscanEntities.RefsCover | src/slots_processor/mod.rs:243-244 | every versioned hash of every transaction is visited, with its index |
| BlobscanEntities.CollectBlobEntities | src/slots_processor/mod.rs:238-250 | the nested loops produce the assembly, or its first missing-blob error |
| SlotsProcessor.BuildBlobEntities | src/slots_processor/mod.rs:238-250 | no entities without commitments; otherwise the blobs are built from the commitments and assembled |
| SlotsProcessor.IndexSlot | src/slots_processor/mod.rs:236-291 | the ladder from the block entity on: entity conversion, blob entities, then `index` with retries |
| SlotsProcessor.ProcessExecutionBlock | src/slots_processor/mod.rs:173-291 | the ladder from the execution block on; it skips exactly when the versioned-hash mapping is built and the block has no transactions (lines 184-191); waits within the backoff bounds |
| SlotsProcessor.ProcessBlock | src/slots_processor/mod.rs:110-291 | the ladder from the beacon block on; it skips exactly when the block has no execution payload (lines 112-122) or the fetched execution block is skipped for having no transactions |
| SlotsProcessor.ProcessSlot | src/slots_processor/mod.rs:71-292 | one slot follows the specified ladder; it skips exactly for slot 0, a missing beacon block, a missing execution payload or an execution block without transactions; slot 0 makes no call and no wait; every wait is between 5 and 600 s |
| SlotsProcessor.ExecutionSkips | src/slots_processor/mod.rs:173-191 | from the execution block on, a skip happens iff the mapping is built and there are no transactions |
| SlotsProcessor.ExecutionIndexed | src/slots_processor/mod.rs:173-291 | reaching `index` means the mapping was built, the transactions converted one for one, there is at least one, and the proposer's validator was found; the outcome is then `index`'s with the first validator's public key |
| SlotsProcessor.BlockSkips | src/slots_processor/mod.rs:110-191 | from the beacon block on, a skip happens iff there is no execution payload or the fetched execution block has no transactions |
| SlotsProcessor.SkipCases | src/slots_processor/mod.rs:71-191 | `process_slot` returns Ok with nothing indexed iff the slot is 0, the retried block lookup answers `None`, the block has no payload, or the retried execution block has no transactions |
| SlotsProcessor.IndexedOnlyAfterChecks | src/slots_processor/mod.rs:71-291 | a slot reaches `index` only when it is not 0, every earlier stage passed and a validator was found; the request is the one built from the block, the converted transactions and the proposer's key |
| SlotsProcessor.ValidatorGiveUp | src/slots_processor/mod.rs:197-214 | the slot fails with "Failed to get validator after retries" iff the earlier stages pass and all 5001 lookups answer `None` |
| SlotsProcessor.IndexOutcome | src/slots_processor/mod.rs:264-291 | `index` gets the converted block, the transactions and the blob entities; the slot succeeds iff one of the 5001 attempts does |
| SlotsProcessor.BlobEntitiesCases | src/slots_processor/mod.rs:238-250 | no entities without commitments; with commitments, entities exist iff every versioned hash has a sidecar blob |
| SlotsProcessor.SlotsRange | src/slots_processor/mod.rs:50-55 | the range has `|initial - final|` slots |
| SlotsProcessor.SlotsRangeMembers | src/slots_processor/mod.rs:50-55 | a range holds exactly the slots from the smaller bound up to, not including, the larger |
| SlotsProcessor.SlotsRangeOrder | src/slots_processor/mod.rs:50-55 | forward ranges ascend and reverse ranges descend, by one slot each step |
| SlotsProcessor.SlotsRangeReverse | src/slots_processor/mod.rs:50-55 | a reverse range is the forward range of the same bounds, backwards |
| SlotsProcessor.ProcessSlots | src/slots_processor/mod.rs:45-69 | slots are visited in range order until the first failure, reported with the range and that slot; success means every slot succeeded |
| SlotProcessor.BlobTransactionsMembers | src/slot_processor/mod.rs:148-153 | the filter keeps exactly the block's transactions that are in the mapping |
| SlotProcessor.BlobTransactionsAppend | src/slot_processor/mod.rs:148-153 | the filter keeps block order |
| SlotProcessor.IndexedOnlyAfterChecks | src/slot_processor/mod.rs:57-178 | `index` is reached only after every check passes; it gets the block entity, the converted blob transactions and the blob entities assembled from the sidecar, one per versioned hash |
| SlotProcessor.SkipCases | src/slot_processor/mod.rs:57-142 | a missing block, payload, commitments or sidecar, or an empty sidecar, skips the slot without indexing |
| SlotProcessor.SkipOnlyWhenMissing | src/slot_processor/mod.rs:57-142 | a skipped slot had its block lookup succeed and lacks a block, payload, commitments or sidecar, or has an empty sidecar: no other path skips |
| SlotProcessor.MismatchIsError | src/slot_processor/mod.rs:111-113 | commitments with no blob transactions is the "Blocks mismatch" error |
| SlotProcessor.ProcessEntities | src/slot_processor/mod.rs:144-189 | the entity stage follows its specification |
| SlotProcessor.ProcessSlot | src/slot_processor/mod.rs:50-190 | one slot follows the specified ladder |
| SlotProcessor.ProcessSlots | src/slot_processor/mod.rs:29-48 | `from..to` in ascending order until the first failure, reported as `FailedSlotsRange{from, to, failed}`; nothing when `from >= to` |
| Synchronizer.TryNew | src/synchronizer/mod.rs:27-42 | a given config is kept; otherwise the parallelism (low 32 bits) and a checkpoint of 1000, or the error "Failed to fetch default synchronizer thread amount" |
| Synchronizer.TilesOrdered | src/synchronizer/mod.rs:61-70 | tiling ranges are ascending and disjoint |
| Synchronizer.TilesCover | src/synchronizer/mod.rs:61-70 | tiling ranges cover exactly `[lo, hi)`, each slot in some range |
| Synchronizer.LastSlotsIncrease | src/synchronizer/mod.rs:194-228 | the last slots of tiling ranges strictly increase and end at `hi - 1` |
| Synchronizer.SubRangeArith | src/synchronizer/mod.rs:49-70 | with `1 <= t <= n` workers, each gets at least one slot and the last ends exactly at `n` |
| Synchronizer.PartitionTiles | src/synchronizer/mod.rs:49-70 | a chunk splits into `min(num_threads, n)` sub-ranges that tile it, `n / t` slots each, the last also taking the remainder |
| Synchronizer.FirstFailure | src/synchronizer/mod.rs:82-104 | a reported failure lies in the sub-range and fails |
| Synchronizer.FirstFailureSpec | src/synchronizer/mod.rs:82-104 | no failure iff every slot succeeds; a failure is the first failing slot |
| Synchronizer.WorkerOutcome | src/synchronizer/mod.rs:82-107 | a worker succeeds iff every slot of its sub-range does; a failure names its sub-range and its first failing slot |
| Synchronizer.ProcessChunk | src/synchronizer/mod.rs:82-107 | the worker loop computes the worker's outcome |
| Synchronizer.ChunkErrorsMembers | src/synchronizer/mod.rs:117-137 | no errors iff every worker succeeded; the errors are exactly the failed workers' |
| Synchronizer.WorkerResults | src/synchronizer/mod.rs:59-113 | one result per sub-range |
| Synchronizer.SyncSlotsOk | src/synchronizer/mod.rs:44-148 | `_sync_slots` succeeds iff every slot of the chunk does |
| Synchronizer.SyncSlotsErrors | src/synchronizer/mod.rs:115-147 | a failed chunk names its bounds and lists every failed worker's error, each naming a failing slot of its sub-range |
| Synchronizer.ChunkErrorsAscending | src/synchronizer/mod.rs:115-147 | over tiling sub-ranges, the joined errors name failing slots of the chunk in strictly ascending order |
| Synchronizer.SyncSlotsErrorsOrdered | src/synchronizer/mod.rs:115-147 | a failed chunk lists its workers' errors in the order they were spawned, so their failing slots strictly ascend |
| Synchronizer.SpawnWorkers | src/synchronizer/mod.rs:49-113 | one worker per sub-range of the partition, in order |
| Synchronizer.JoinWorkers | src/synchronizer/mod.rs:115-137 | the joining loop collects the failed workers' errors in order |
| Synchronizer.SyncSlots | src/synchronizer/mod.rs:44-148 | `_sync_slots` follows its specification |
| Synchronizer.ChunksTile | src/synchronizer/mod.rs:171-229 | the chunks tile `[from, to)`; each has `min(remaining, checkpoint)` slots, and all but the last are full |
| Synchronizer.ChunkOutcomeCases | src/synchronizer/mod.rs:190-220 | a turn fails iff its chunk fails or recording its last slot fails, the chunk's error taking precedence |
| Synchronizer.ChunksOk | src/synchronizer/mod.rs:179-229 | when every chunk was synced and recorded, every slot of `[from, to)` succeeded |
| Synchronizer.SyncChunk | src/synchronizer/mod.rs:180-220 | one turn of the loop follows its specification |
| Synchronizer.ChunksAdvance | src/synchronizer/mod.rs:179-182 | a turn takes the next chunk of the tiling, `min(unprocessed, checkpoint)` slots from the current slot, and the chunks started stay a prefix of the tiling |
| Synchronizer.RunTurn | src/synchronizer/mod.rs:179-228 | a turn starts the next chunk of the tiling; on success its last slot is recorded and every chunk so far stays recorded, on failure nothing is recorded and the error is the chunk's outcome |
| Synchronizer.RunChunks | src/synchronizer/mod.rs:171-229 | the loop starts chunks in tiling order; on success all of them were recorded, on failure all but the last, whose outcome is the error |
| Synchronizer.RunRecordsMeaning | src/synchronizer/mod.rs:171-236 | the loop's outcome, spelled out: the recorded slots pair with the started chunks, and success means every slot of `[from, to)` succeeded |
| Synchronizer.Run | src/synchronizer/mod.rs:150-236 | equal bounds: Ok with nothing processed. Greater: the "Starting slot … is greater than final slot …" error. Otherwise the chunks in order, each recorded after it; stops at the first failed turn with its error; on success every chunk is processed and every slot succeeded |
| Synchronizer.RecordedSlots | src/synchronizer/mod.rs:194-228 | the recorded slots strictly increase; after a full run the last is `to - 1` |
| Indexer.TryNew | src/indexer/mod.rs:48-92 | the context error and the parallelism error become creation failures with their messages. Otherwise the arguments are kept, `Disabled` iff checkpoint saves are off, and the dencun slot falls back to the network's |
| Indexer.LowerStartBlockAsWritten | src/indexer/mod.rs:127-139 | as written, a stored upper slot of 0 with no lower slot gives slot 4294967295; otherwise it agrees with the corrected rule |
| Indexer.LowerStartBlock | src/indexer/mod.rs:127-139 | an explicit start; else lowest synced slot minus 1 (never below 0); else upper synced slot minus 1; else head; head with no state |
| Indexer.LowerStartBlockWraps | src/indexer/mod.rs:133 | the concrete input on which the code as written and the corrected rule disagree |
| Indexer.StartBlocksApart | src/indexer/mod.rs:127-152 | with no start block and a stored state whose slots are ordered and below the `u32` limit, the historical task starts strictly below the realtime task |
| Indexer.UpperStartBlock | src/indexer/mod.rs:140-152 | an explicit start; else highest synced slot plus 1; else lowest synced slot plus 1; else slot 1; head with no state |
| Indexer.PlanTasks | src/indexer/mod.rs:160-178 | realtime iff no end block, syncing from the upper start block; the end defaults to the dencun slot; historical iff not disabled and the lower start is not below the dencun slot, syncing from the lower start block to that end; the count of started tasks |
| Indexer.TaskCount | src/indexer/mod.rs:160-178 | no task is started iff an end block is given and historical sync is disabled or complete; at most two tasks |
| Indexer.CreateSynchronizer | src/indexer/mod.rs:452-466 | the configured checkpoint size and thread count are passed on; a disabled checkpoint overrides the requested type |
| Indexer.DoneCountAllDone | src/indexer/mod.rs:180-197 | a run of `Done` messages counts each one |
| Indexer.AwaitTasks | src/indexer/mod.rs:180-197 | returns Err on the first `Error` message, Ok at the `Done` that completes the count or when the messages end; nothing is consumed after that |
| Indexer.FetchSyncState | src/indexer/mod.rs:100-125 | the fetch is retried on errors with the capped backoff; it fails only after 5000 retries, with the last error |
| Indexer.HistoricalSync | src/indexer/mod.rs:213-244 | at most 5000 attempts. `Done` iff the last attempt succeeds; `Error` only after 5000 failures, carrying the last error. It waits between attempts only, per the schedule |
| Indexer.PrependAllAssoc | src/indexer/mod.rs:322-323 | collecting slot by slot equals collecting them at once |
| Indexer.WalkFollowsParents | src/indexer/mod.rs:311-325 | the walk collects at most `depth` slots, slot `i` that of the `i`-th ancestor. It stops early only at a missing header and fails only at a failed ancestor lookup, naming that block |
| Indexer.ReorgWalk | src/indexer/mod.rs:311-325 | the reorg loop computes the parent walk |
| Indexer.HandleReorg | src/indexer/mod.rs:304-332 | decode, walk, then mark the walked slots reorged; a failure there names the depth and the old head |
| Indexer.FinalizedOutcome | src/indexer/mod.rs:375-414 | a checkpoint succeeds iff its block is found with a payload and storing only its block number as the last finalized block succeeds |
| Indexer.RealtimeTopicNames | src/indexer/mod.rs:274-278 | the realtime task subscribes to exactly "chain_reorg", "head" and "finalized_checkpoint" |
| Indexer.HeadRange | src/indexer/mod.rs:357-366 | the first head syncs from the start block, later ones from the head slot, always up to the slot after the head |
| Indexer.HandleMessage | src/indexer/mod.rs:299-418 | dispatch by event name; a head event's slot is reported when it decodes; unknown names are `UnexpectedBeaconEvent` |
| Indexer.RealtimeSpecStep | src/indexer/mod.rs:296-434 | the event loop's outcome is the first event's step followed by the rest |
| Indexer.StreamFailuresNext | src/indexer/mod.rs:420-427 | stream errors are counted one by one along the event stream |
| Indexer.HandleEvent | src/indexer/mod.rs:296-434 | a stream error is retried until 5000 have been retried and then ends the realtime task; a message is handled; the head flag clears after a decoded head |
| Indexer.Turn | src/indexer/mod.rs:296-434 | one turn follows the loop's step; a head records its sync range; a retried stream error waits the next delay of the schedule, and the loop's bookkeeping is kept |
| Indexer.RealtimeLoop | src/indexer/mod.rs:296-437 | events are handled until one fails, with the outcome of the specification. Head syncs start from the start block first and from the head slot later. Stream errors wait per the never-reset schedule, at most 5000 times |
| Indexer.RealtimeSync | src/indexer/mod.rs:267-437 | a subscription error is reported at once, with nothing processed; otherwise the event loop's outcome |
| Indexer.RealtimeMessage | src/indexer/mod.rs:442-446 | the realtime task sends `Done` iff its body succeeded |
| Indexer.Run | src/indexer/mod.rs:94-200 | the sync-state fetch with retries; on success the realtime task starts from the upper start block and the historical task from the lower start block to the end block, the plan of syncing tasks and the awaited messages as specified |

## Left out

- HTTP, the execution provider, the blobscan API, serde decoding and `Url::parse` are functions given as parameters. URL joining is concatenation onto a base ending in `/`.
- tokio tasks, `mpsc` channels and `join_all` are sequential here. Worker order does not change the gathered errors. A panicked worker (`JoinError`) is not modelled.
- Waiting (`sleep`), tracing and logging are left out. Delays are returned as whole seconds.
- `retry_notify` with `get_exp_backoff_config` around `update_slot` is not shown. Its overall outcome is one function value per slot.
- The `helpers` module (the two mappings) and the blobscan `Block`/`Transaction`/`Blob` conversions are uninterpreted functions. Their iteration order (a `HashMap`) is the order of the input sequence.
- `thread::available_parallelism` is an input.
- The network default dencun fork slot is an input.
- The context's construction is an input: its error's debug text or success.
- Indexer.RealtimeSync: the best-effort `update_sync_state(slot - 1)` after a failed reorg is left out. Its result is discarded, and `slot - 1` underflows at slot 0.
- `From<HeadEventData> for BlockData` and `From<BlockHeader> for BlockData` are plain field copies and are not modelled.
- Indexer.Run: chooses the lower start block by the corrected rule (see Findings), not as written. The two differ only on a stored state with no lower slot and upper slot 0, with no start block given. There the source's release build starts from slot 4294967295 and counts historical sync as incomplete. Unless disabled, it starts the historical task. Here the start is slot 0, and with a dencun slot above 0 no historical task starts.
- Indexer.AwaitTasks: with no task started, the source waits forever, because the senders stay alive. Here the given messages simply end.
- Indexer.UpperStartBlock: a stored slot of 4294967295 wraps to 0, as the unchecked addition does in a release build. A debug build panics there instead.
- Indexer.HeadRange: a head slot of 4294967295 wraps the same way.
- Synchronizer.Run: requires a positive checkpoint and thread count for a non-empty range. With a zero checkpoint the source loops forever; with zero threads it divides by zero.
- SlotsProcessor.ProcessSlot: requires that no answer triggers a panic in the source: a missing execution block (`unwrap`), an empty validator list (`containers[0]`), or non-hex commitments (`unwrap`). The unreachable "Failed to get validator pubkey" branch is left out for the same reason.
- BeaconTypes.FromColumns: requires a non-empty columns response (`data[0]`) and hex commitments (`unwrap`).
- SlotsProcessorErrors.UnescapeEscape: `escape_debug` of non-ASCII characters (grapheme extenders, unprintable code points) is treated as printing them unchanged.
- The `{:?}` forms of client, provider and `anyhow` errors are opaque strings.
- The version skew between files (`BlockId` against `u32` in `synchronizer.run`, `get_head_validators` against `get_head_validator`) is handled by modelling each file on its own terms.

## Findings

| source | as written | input that shows it | evidently intended | confidence | as-written member | corrected member |
|---|---|---|---|---|---|---|
| src/indexer/mod.rs:133 | `BlockId::Slot(slot - 1)` on the stored upper slot when no lower slot is stored, without the guard that line 131 has | stored state with no lower slot and upper slot 0, no start block: the `u32` subtraction underflows (panic in a debug build, slot 4294967295 in a release build) | saturate at 0 as line 131 does, giving `Slot(0)` | not executed | Indexer.LowerStartBlockAsWritten | Indexer.LowerStartBlock |
